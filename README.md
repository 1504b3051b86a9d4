# quic-go datagram queue, modelled in Dafny

This project models `datagramQueue`. It is the queue a quic-go connection uses for DATAGRAM frames, which belong to the unreliable datagram extension of QUIC (RFC 9221). It has three parts:

- **Outbound hand-off.** `AddAndWait` puts an application's frame into a capacity-1 channel (`sendQueue`) and calls the `hasData` callback. The packet packer then calls `Peek`, which moves the frame into `nextFrame` and returns it without consuming it. `Pop(err)` forgets the frame and hands `err` over the unbuffered `dequeued` channel to the sender, which is still waiting. An expired frame is completed by `Peek` itself with `DatagramQueuedTooLong`.
- **Inbound buffer.** `HandleDatagramFrame` appends a copy of a received payload to `rcvQueue` while fewer than `protocol.DatagramRcvQueueLen` (128) payloads are buffered. When the buffer is full it drops the new payload. `Receive` returns the oldest buffered payload. With an empty buffer it waits for a wake-up, the close, or cancellation of its context.
- **Close.** `CloseWithError(e)` records `e` and closes the `closed` channel. Every sender and receiver that then waits for the close returns `e`.

Each operation is one atomic step:

- **Specification.** The specification of each step is a function on the value `Quic.QueueState`, for example `AddStep`, `PeekStep`, `PopStep`, `HandleStep`, `ReceiveStep` and `CloseStep`. The contract of each function states what the step promises.
- **The queue object.** The class `Quic.DatagramQueue` holds the same state in fields. Its methods follow the Go code line by line. Each method ensures that the new state, and the result it returns, equal what its step function gives.
- **Blocking.** A call that would block is a step that returns a `...Blocked` or `Recheck` outcome and changes nothing.
- **Choice between ready cases.** When two cases of a Go `select` are ready at once, Go picks one at random. In the model that pick is a parameter: `preferClose`, or `Ready` for `Receive`.
- **AddAndWait in two steps.** `AddAndWaitEnqueue` is the first `select`, which places the frame. `AddAndWaitResult` is the second `select`, which waits for the result.
- **The `dequeued` channel.** This unbuffered channel is an `Option<Error>` field. `Pop` fills it and the waiting sender empties it. Go's `Pop` does not return before the hand-off is complete, so `Peek` and `Pop` require the field to be empty.
- **Ghost state.** The field `waiting` counts the senders that placed a frame and still wait for its result. The field `results` logs every error `Pop` handed over. The field `hasDataCalls` counts calls to the callback.
- **The invariant.** `Inv` states two things. The buffer never exceeds its capacity. While the queue is open, the frames and results on their way to senders are exactly as many as the senders waiting for one.

The lemmas in `DatagramQueueLemmas` are about runs of several steps: repeated Peeks, bursts of deliveries, draining the buffer, and closing.

Three behaviours of the code are easy to misread:

- **Outbound frames.** Up to two outbound frames can be outstanding, not one. A frame peeked into `nextFrame` frees the channel slot, so a second sender can place its frame there. `PeekStep` and `SecondFrameWaitsForPop` show that the second frame is not returned before the first is popped.
- **Send timeout.** `newDatagramQueue` accepts `sendTimeout` but never stores it. A constructed queue therefore has no timeout, and its frames never expire (`NewState`, `NewQueueFramesNeverExpire`). The expiry path is only reached when the field is set directly, which is what `LateFrameIsReportedExpired` assumes.
- **Second close.** Closing an already closed channel panics in Go, so `CloseStep` and `CloseWithError` require an open queue.

## Model

| member | source | states |
|---|---|---|
| `Quic.NewState` | datagram_queue.go:46-55 | a new queue is open and empty, satisfies the invariant, and has no send timeout: the timeout argument is dropped |
| `Quic.DatagramQueue.constructor` | datagram_queue.go:46-55 | the constructed object's state is exactly `NewState`, so it is valid and stores no timeout |
| `DatagramQueueLemmas.ExpiryIsPermanent` | datagram_queue.go:39-44 | a zero deadline never expires; a deadline t has expired at `now` exactly when t is strictly before `now`; once expired, a frame stays expired at every later time |
| `DatagramQueueLemmas.NewQueueFramesNeverExpire` | datagram_queue.go:60-67 | in any state with no send timeout, which is every state of a queue built by `newDatagramQueue`, a placing step keeps the timeout at zero, and the frame it places gets the zero deadline and never expires |
| `Quic.AddStep` | datagram_queue.go:59-74 | the frame is placed exactly when the channel slot is free and the close case is not picked; a full slot on an open queue blocks; `hasData` is called exactly when a frame is placed; placing changes only the slot and the count of waiting senders; the close case returns the close error and changes nothing; the invariant is preserved |
| `Quic.DatagramQueue.AddAndWaitEnqueue` | datagram_queue.go:59-74 | new state and outcome are those of `AddStep`; the object stays valid |
| `Quic.WaitStep` | datagram_queue.go:76-81 | a waiting sender returns exactly the error `Pop` handed over, taking it off the channel; if the queue is closed and the close case is picked or no result is there, it returns the close error; it blocks exactly when no result is there and the queue is open; the invariant is preserved |
| `Quic.DatagramQueue.AddAndWaitResult` | datagram_queue.go:76-81 | new state and outcome are those of `WaitStep`; the object stays valid |
| `Quic.PeekStep` | datagram_queue.go:86-96 | with nothing pending, returns nil and changes nothing; a live pending frame is returned and stays in `nextFrame`, after being taken out of the channel if it was not already peeked; an expired one is cleared, its sender is handed `DatagramQueuedTooLong`, and nil is returned; a frame in the channel is untouched while another is peeked; the invariant is preserved |
| `Quic.DatagramQueue.Peek` | datagram_queue.go:86-96 | new state and returned frame are those of `PeekStep`; the object stays valid |
| `Quic.DequeueNextFrameStep` | datagram_queue.go:98-104 | a live peeked frame is returned and nothing changes; for an expired one, nil is returned, `nextFrame` is cleared, `DatagramQueuedTooLong` is offered to the sender and appended to the log of results, and nothing else changes |
| `Quic.DatagramQueue.DequeueNextFrame` | datagram_queue.go:98-104 | new state and result are those of `DequeueNextFrameStep` |
| `Quic.PopStep` | datagram_queue.go:106-112 | needs a peeked frame, since Go panics otherwise; clears `nextFrame`, offers exactly `err` to the waiting sender, appends it to the log of results, and changes nothing else; the invariant is preserved |
| `Quic.DatagramQueue.Pop` | datagram_queue.go:106-112 | new state is that of `PopStep`: `nextFrame` is nil and `err` is on its way to the sender |
| `Quic.HandleStep` | datagram_queue.go:115-128 | the old buffer is always a prefix of the new one, so nothing is evicted; the buffer changes exactly when it had room, and then gains the payload at its end; the capacity bound and the invariant are preserved; nothing but the buffer changes |
| `Quic.DatagramQueue.HandleDatagramFrame` | datagram_queue.go:115-132 | new state is that of `HandleStep` |
| `Quic.ReceiveStep` | datagram_queue.go:135-154 | a non-empty buffer yields its head and keeps exactly its tail, whatever else is ready; on an empty buffer nothing changes, and a wake-up goes round the loop again, the close returns the close error, and cancellation returns the context's error |
| `Quic.DatagramQueue.Receive` | datagram_queue.go:135-154 | new state and outcome are those of `ReceiveStep` |
| `Quic.CloseStep` | datagram_queue.go:156-159 | needs an open queue, since closing twice panics; afterwards the queue is closed with exactly the given error and nothing else changed; the invariant is preserved |
| `Quic.DatagramQueue.CloseWithError` | datagram_queue.go:156-159 | new state is that of `CloseStep` |
| `DatagramQueueLemmas.LateFrameIsReportedExpired` | datagram_queue.go:98-101 | with a positive timeout T, a frame placed at time t and first peeked after t + T is not returned, and its sender receives `DatagramQueuedTooLong` |
| `DatagramQueueLemmas.WaitingSenderIsServed` | datagram_queue.go:106-112 | on an open queue, a waiting sender always has something on its way: one Peek, plus a Pop(err) if Peek returned a frame, lets it return exactly `err`, or `DatagramQueuedTooLong` if the frame expired |
| `DatagramQueueLemmas.RepeatedPeekReturnsSameFrame` | datagram_queue.go:84-104 | any number of Peeks before Pop return the same peeked frame while it has not expired, and change nothing |
| `DatagramQueueLemmas.SecondFrameWaitsForPop` | datagram_queue.go:86-96 | while one frame is peeked, a second frame in the channel is neither returned nor moved; after the first is popped, a waiting sender takes exactly the error given to Pop, and then the next Peek returns the second frame |
| `DatagramQueueLemmas.DeliverAllKeepsOldest` | datagram_queue.go:120-127 | delivering a burst appends exactly its first (room left) payloads in arrival order and drops the rest; buffered payloads are kept and nothing else changes |
| `DatagramQueueLemmas.ReceiveIsFifo` | datagram_queue.go:137-142 | n Receives on a buffer holding at least n payloads return its first n payloads in order and leave exactly the rest |
| `DatagramQueueLemmas.DeliveredInArrivalOrder` | datagram_queue.go:115-142 | payloads delivered to an empty buffer are received in arrival order, up to the capacity |
| `DatagramQueueLemmas.DrainedBufferWaits` | datagram_queue.go:136-147 | once every buffered payload has been received, the buffer is empty; the next pass of Receive's loop returns no payload and changes nothing, whatever case is ready, and a wake-up goes round the loop again |
| `DatagramQueueLemmas.AfterCloseWaitersGetCloseError` | datagram_queue.go:69-81 | after `CloseWithError(e)`, these all return e: a sender that finds the slot taken or picks the close case; a sender waiting for its result when none is there or it picks the close case; a Receive on an empty buffer |
| `DatagramQueueLemmas.AfterCloseBufferedFramesAreDelivered` | datagram_queue.go:136-149 | closing discards nothing: Receive still returns every payload buffered before the close, in order, and only then the close error |

## Left out

- Goroutines, channels and `select` are not modelled as concurrency. Each operation is one atomic step. Blocking is a step that reports it is blocked and changes nothing. Go's random pick between ready `select` cases is a parameter.
- The rendezvous on the unbuffered `dequeued` channel is split into two steps. `Pop` leaves its error in a one-place cell, and the waiting sender's `AddAndWaitResult` takes it. `Peek` and `Pop` require the cell to be empty, which stands for Go's `Pop` not returning before the hand-off.
- The model does not track which sender receives the error `Pop` hands over. All waiting senders receive from the one shared channel. When two frames are outstanding (one peeked, one in the channel), the error for the peeked frame can reach the sender of the other frame. The model counts waiting senders and results but does not tell senders apart.
- `rcvMx` (the mutex) is left out. Every step is atomic in the model.
- The coalescing `rcvd` wake-up channel is left out. A wake-up is only a hint: the `Woken` case of `Receive` goes round the loop again without changing anything.
- `context.Context` is left out. Its cancellation is the `CtxDone` case of `Receive`, which returns `ContextDone` and leaves the buffer unchanged.
- AddStep: the deadline is computed from the `now` the step is given. Go computes it once, when `AddAndWait` is entered, before the `select` that can block on a full slot. The model matches Go only if a sender that got `AddBlocked` retries with the same `now`. This matters only when a send timeout has been set directly.
- `time.Now()` and `time.Duration` arithmetic are left out. Times are integers passed in as `now`, and Go's zero `time.Time` is `ZeroTime`.
- The `hasData` callback is left out. The model keeps only a ghost count of its calls.
- The logger (`utils.Logger`) and its debug message for a dropped frame are left out. They are diagnostic output only.
- `wire.DatagramFrame` is modelled only as its `Data` bytes. Its other fields and its wire encoding are left out.
- The private copy `HandleDatagramFrame` makes is modelled by value semantics. Payloads are immutable sequences, so aliasing between the caller's buffer and the queue cannot be expressed.
- `protocol.DatagramRcvQueueLen` is taken as 128, its value in quic-go. The package `internal/protocol` is not part of this model.
