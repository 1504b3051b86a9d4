/**
 * Properties of runs of several datagram-queue steps: the inbound buffer is
 * a FIFO that keeps the oldest frames, repeated Peeks hand out the same
 * frame, every waiting sender is served, expired frames are reported, and a
 * closed queue answers every waiter with the close error.
 */
module DatagramQueueLemmas {
  import opened Wrappers
  import opened Quic

  // ---------------------------------------------------------------------------
  // Expiry
  // ---------------------------------------------------------------------------

  /**
   * A frame without a deadline never expires; a frame with deadline t is
   * live at every time up to t and expired at every time after it, so once
   * expired it stays expired.
   */
  lemma ExpiryIsPermanent(qf: QueuedFrame, now: int, later: int)
    requires now <= later
    ensures qf.expireTime.ZeroTime? ==> !HasExpired(qf, now)
    ensures qf.expireTime.Instant? ==> (HasExpired(qf, now) <==> qf.expireTime.t < now)
    ensures HasExpired(qf, now) ==> HasExpired(qf, later)
  {
  }

  /**
   * A queue as newDatagramQueue builds it has no send timeout, and no step
   * sets one, so every frame AddAndWait places in it gets the zero deadline
   * and never expires.
   */
  lemma NewQueueFramesNeverExpire(s: QueueState, f: DatagramFrame, now: int, preferClose: bool, later: int)
    requires s.sendTimeout == 0
    ensures var a := AddStep(s, f, now, preferClose);
            && a.next.sendTimeout == 0
            && (a.outcome.Placed? ==>
                  && a.next.sendQueue.value.expireTime == ZeroTime
                  && !HasExpired(a.next.sendQueue.value, later))
  {
  }

  /**
   * With a positive timeout T set, a frame placed at time t and not peeked
   * until after t + T is not handed to the packer; its sender receives
   * DatagramQueuedTooLong.
   */
  lemma LateFrameIsReportedExpired(s: QueueState, f: DatagramFrame, t: int, later: int)
    requires Inv(s) && !s.closed
    requires s.sendQueue.None? && s.nextFrame.None? && s.dequeued.None?
    requires s.sendTimeout > 0 && later > t + s.sendTimeout
    ensures var a := AddStep(s, f, t, false);
            var p := PeekStep(a.next, later);
            && a.outcome.Placed?
            && p.frame.None?
            && WaitStep(p.next, false).outcome == WaitReturned(DatagramQueuedTooLong)
  {
  }

  // ---------------------------------------------------------------------------
  // Outbound hand-off
  // ---------------------------------------------------------------------------

  /**
   * While the queue is open, a sender waiting for its result always has a
   * frame or a result on its way: one Peek and, if Peek returned a frame,
   * one Pop(err) let a waiting sender return exactly the error given to Pop
   * (or DatagramQueuedTooLong when the frame expired).
   */
  lemma WaitingSenderIsServed(s: QueueState, now: int, err: Error)
    requires Inv(s) && !s.closed && s.waiting > 0 && s.dequeued.None?
    ensures var p := PeekStep(s, now);
            && (p.frame.Some? ==>
                  && p.next.nextFrame.Some? && p.next.dequeued.None?
                  && WaitStep(PopStep(p.next, err), false).outcome == WaitReturned(err))
            && (p.frame.None? ==>
                  && p.next.waiting > 0
                  && WaitStep(p.next, false).outcome == WaitReturned(DatagramQueuedTooLong))
  {
  }

  /** The outcomes of Peeks at the given times, stopping once Peek would block. */
  datatype PeekRunResult = PeekRunResult(last: QueueState, frames: seq<Option<DatagramFrame>>)

  function PeekRun(s: QueueState, nows: seq<int>): (r: PeekRunResult)
    ensures |r.frames| <= |nows|
    decreases |nows|
  {
    if |nows| == 0 || s.dequeued.Some? then
      PeekRunResult(s, [])
    else
      var p := PeekStep(s, nows[0]);
      var rest := PeekRun(p.next, nows[1..]);
      PeekRunResult(rest.last, [p.frame] + rest.frames)
  }

  /**
   * Peeking again and again before Pop returns the same peeked frame each
   * time, as long as it has not expired, and changes nothing.
   */
  lemma {:induction false} RepeatedPeekReturnsSameFrame(s: QueueState, qf: QueuedFrame, nows: seq<int>)
    requires s.nextFrame == Some(qf) && s.dequeued.None?
    requires forall i :: 0 <= i < |nows| ==> !HasExpired(qf, nows[i])
    ensures PeekRun(s, nows).last == s
    ensures |PeekRun(s, nows).frames| == |nows|
    ensures forall i :: 0 <= i < |nows| ==> PeekRun(s, nows).frames[i] == Some(qf.frame)
  {
    if |nows| > 0 {
      var p := PeekStep(s, nows[0]);
      assert p == Peeked(s, Some(qf.frame));
      RepeatedPeekReturnsSameFrame(s, qf, nows[1..]);
      var rest := PeekRun(s, nows[1..]);
      assert PeekRun(s, nows).frames == [Some(qf.frame)] + rest.frames;
    }
  }

  /**
   * A second sender cannot overtake the first: while a frame is peeked, a
   * frame waiting in the channel is neither returned by Peek nor moved, and
   * once the first is popped and a waiting sender has taken exactly the
   * error given to Pop, the next Peek returns the second.
   */
  lemma SecondFrameWaitsForPop(s: QueueState, now: int, later: int, err: Error)
    requires Inv(s) && !s.closed
    requires s.nextFrame.Some? && s.sendQueue.Some? && s.dequeued.None?
    requires !HasExpired(s.nextFrame.value, now) && !HasExpired(s.sendQueue.value, later)
    ensures var p := PeekStep(s, now);
            var w := WaitStep(PopStep(p.next, err), false);
            && p.frame == Some(s.nextFrame.value.frame)
            && p.next.sendQueue == s.sendQueue
            && w.outcome == WaitReturned(err)
            && PeekStep(w.next, later).frame == Some(s.sendQueue.value.frame)
  {
  }

  // ---------------------------------------------------------------------------
  // Inbound buffer
  // ---------------------------------------------------------------------------

  /** The state after HandleDatagramFrame has been called with each payload in turn. */
  function DeliverAll(s: QueueState, payloads: seq<seq<byte>>): (r: QueueState)
    ensures Inv(s) ==> Inv(r)
    ensures r.closed == s.closed
    ensures r.(rcvQueue := s.rcvQueue) == s
    decreases |payloads|
  {
    if |payloads| == 0 then s else DeliverAll(HandleStep(s, DatagramFrame(payloads[0])), payloads[1..])
  }

  /**
   * Delivering a burst keeps exactly as many of its first payloads as there
   * is room for, appended in arrival order; the rest are dropped and nothing
   * buffered before is evicted.
   */
  lemma {:induction false} DeliverAllKeepsOldest(s: QueueState, payloads: seq<seq<byte>>)
    requires |s.rcvQueue| <= DatagramRcvQueueLen
    ensures DeliverAll(s, payloads)
            == s.(rcvQueue := s.rcvQueue + payloads[..Min(|payloads|, DatagramRcvQueueLen - |s.rcvQueue|)])
    decreases |payloads|
  {
    if |payloads| > 0 {
      var s1 := HandleStep(s, DatagramFrame(payloads[0]));
      DeliverAllKeepsOldest(s1, payloads[1..]);
      var room := DatagramRcvQueueLen - |s.rcvQueue|;
      if room > 0 {
        assert s1.rcvQueue == s.rcvQueue + [payloads[0]];
        var k := Min(|payloads| - 1, room - 1);
        assert payloads[1..][..k] == payloads[1..k + 1];
        assert s.rcvQueue + [payloads[0]] + payloads[1..k + 1] == s.rcvQueue + payloads[..k + 1];
      } else {
        assert s1 == s;
        assert payloads[1..][..0] == payloads[..0];
      }
    }
  }

  /** The outcomes of n passes of Receive's loop, all with the same ready case. */
  datatype ReceiveRunResult = ReceiveRunResult(last: QueueState, outcomes: seq<ReceiveOutcome>)

  function ReceiveRun(s: QueueState, n: nat, ready: Ready): (r: ReceiveRunResult)
    requires ready.CloseReady? ==> s.closed
    ensures |r.outcomes| == n
    ensures r.last.closed == s.closed
    decreases n
  {
    if n == 0 then
      ReceiveRunResult(s, [])
    else
      var step := ReceiveStep(s, ready);
      var rest := ReceiveRun(step.next, n - 1, ready);
      ReceiveRunResult(rest.last, [step.outcome] + rest.outcomes)
  }

  /**
   * Receiving n times from a buffer holding at least n frames returns its
   * first n frames in order and leaves exactly the rest.
   */
  lemma {:induction false} ReceiveIsFifo(s: QueueState, n: nat, ready: Ready)
    requires n <= |s.rcvQueue| && (ready.CloseReady? ==> s.closed)
    ensures ReceiveRun(s, n, ready).last == s.(rcvQueue := s.rcvQueue[n..])
    ensures forall i :: 0 <= i < n ==> ReceiveRun(s, n, ready).outcomes[i] == Received(s.rcvQueue[i])
    decreases n
  {
    if n > 0 {
      var step := ReceiveStep(s, ready);
      ReceiveIsFifo(step.next, n - 1, ready);
      assert step.next.rcvQueue == s.rcvQueue[1..];
      assert s.rcvQueue[1..][n - 1..] == s.rcvQueue[n..];
      var run := ReceiveRun(s, n, ready);
      forall i | 0 <= i < n
        ensures run.outcomes[i] == Received(s.rcvQueue[i])
      {
        if i > 0 {
          assert run.outcomes[i] == ReceiveRun(step.next, n - 1, ready).outcomes[i - 1];
        }
      }
    }
  }

  /**
   * Payloads delivered to an empty buffer come out of Receive in the order
   * they arrived; the ones beyond the capacity are lost.
   */
  lemma DeliveredInArrivalOrder(s: QueueState, payloads: seq<seq<byte>>, ready: Ready)
    requires s.rcvQueue == [] && (ready.CloseReady? ==> s.closed)
    ensures var k := Min(|payloads|, DatagramRcvQueueLen);
            forall i :: 0 <= i < k ==> ReceiveRun(DeliverAll(s, payloads), k, ready).outcomes[i] == Received(payloads[i])
  {
    var k := Min(|payloads|, DatagramRcvQueueLen);
    var d := DeliverAll(s, payloads);
    assert d.rcvQueue == payloads[..k] && d.closed == s.closed by {
      DeliverAllKeepsOldest(s, payloads);
    }
    ReceiveIsFifo(d, k, ready);
    forall i | 0 <= i < k
      ensures ReceiveRun(d, k, ready).outcomes[i] == Received(payloads[i])
    {
      assert d.rcvQueue[i] == payloads[i];
    }
  }

  /**
   * Receiving as many times as there are buffered frames empties the
   * buffer; the pass of Receive's loop after that, whatever case is ready,
   * returns no payload and changes nothing, and a wake-up goes round again.
   */
  lemma DrainedBufferWaits(s: QueueState, ready: Ready, next: Ready)
    requires ready.CloseReady? ==> s.closed
    requires next.CloseReady? ==> s.closed
    ensures var last := ReceiveRun(s, |s.rcvQueue|, ready).last;
            && last.rcvQueue == []
            && !ReceiveStep(last, next).outcome.Received?
            && ReceiveStep(last, next).next == last
            && (next.Woken? ==> ReceiveStep(last, next).outcome == Recheck)
  {
    var last := ReceiveRun(s, |s.rcvQueue|, ready).last;
    assert last == s.(rcvQueue := []) by {
      ReceiveIsFifo(s, |s.rcvQueue|, ready);
      assert s.rcvQueue[|s.rcvQueue|..] == [];
    }
  }

  // ---------------------------------------------------------------------------
  // Close
  // ---------------------------------------------------------------------------

  /**
   * After CloseWithError(e): a sender that finds the slot taken, or whose
   * select picks the close case, returns e; so does a sender waiting for its
   * result when no result is on its way or the close case is picked; and a
   * Receive on an empty buffer woken by the close returns e.
   */
  lemma AfterCloseWaitersGetCloseError(s: QueueState, e: Error, f: DatagramFrame, now: int, preferClose: bool)
    requires !s.closed
    ensures var c := CloseStep(s, e);
            && (c.sendQueue.Some? || preferClose ==> AddStep(c, f, now, preferClose).outcome == AddReturned(e))
            && (c.waiting > 0 && (c.dequeued.None? || preferClose) ==>
                  WaitStep(c, preferClose).outcome == WaitReturned(e))
            && (c.rcvQueue == [] ==> ReceiveStep(c, CloseReady).outcome == ReceiveFailed(e))
  {
  }

  /**
   * Closing does not discard received frames: Receive still returns every
   * frame buffered before the close, in order, and only then the close error.
   */
  lemma {:induction false} AfterCloseBufferedFramesAreDelivered(s: QueueState, e: Error)
    requires !s.closed
    ensures var c := CloseStep(s, e);
            var run := ReceiveRun(c, |s.rcvQueue|, CloseReady);
            && (forall i :: 0 <= i < |s.rcvQueue| ==> run.outcomes[i] == Received(s.rcvQueue[i]))
            && ReceiveStep(run.last, CloseReady).outcome == ReceiveFailed(e)
  {
    var c := CloseStep(s, e);
    ReceiveIsFifo(c, |s.rcvQueue|, CloseReady);
    assert c.rcvQueue[|s.rcvQueue|..] == [];
  }
}
