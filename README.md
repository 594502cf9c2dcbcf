# Asynchronous driver base of socketcan_interface, in Dafny

This project models `asio_base.h` of `socketcan_interface`:

- `AsioDriver` is the base of the CAN transports. It tracks the link `State`: a driver state (closed, open or ready), a transport error code and an internal error code.
- It hands every change of that state to state listeners.
- It runs the read, dispatch, re-arm chain that hands received frames to frame listeners.
- `send` goes through only when the link is ready.
- `shutdown` closes the transport and stops the reactor.
- `StateWaiter` remembers the last state a driver reported.
- `ThreadedInterface` runs a driver's `run` on a background thread that it tracks.

Files:

- `driver_state.dfy` (module `DriverState`): `State`, `LinkStatus`, `ErrorCode`, `Frame`.
- `driver_model.dfy` (module `DriverModel`): a value model of the driver. Each operation is a function from one `Driver` value to the next. The lemmas about notifications and frame order are stated here.
- `asio_base.dfy` (module `AsioBase`): the classes `AsioDriver`, `StateWaiter` and `ThreadedInterface`. Each `AsioDriver` method changes the object's fields in place. The contract of each method that models an `AsioDriver` operation says that the new `Model()` is the `DriverModel` function applied to the old one; `OpenSocket` and `Enqueue` stand for the concrete transport and frame each field instead, and `GetState` changes nothing. Its `Valid()` invariant says that state listeners were last told the stored state.

Outside inputs become parameters:

- the transport's answer to `enqueue` (`accepted`);
- the frame buffer and error code of a read completion;
- what the reactor runs while `run` blocks (a sequence of `Event`s);
- the error code `io_service_.run(ec)` returns (`ec`);
- the answer of the wrapped driver's `init` (`initOk`);
- the answer of the one-second start-up wait (`started`).

The state and frame dispatchers are modelled as ghost logs of what they were handed: `notified` and `delivered`. The frames passed to `enqueue` are logged in `offered`.

Main properties:

- Every setter notifies exactly when its field changed, and the notification is the full new state (`NotifiedOnChange`).
- While the reactor runs handlers, and during `run`, the notification log grows by exactly the deduplicated path of stored states (`LogsVisits`, `Dedup`). So every state change is notified once, in order, and the same state is never notified twice in a row (`DedupChangesOnly`).
- `run` always ends with one extra, unconditional notification of the final state.
- On an open socket, `run` notifies open (if the stored status was not already open), then ready, before the reactor handles anything.
- After `run`, the link status matches the socket's open status at the end. When the socket was open at the start, the error code is the one the reactor returned; on a closed socket the reactor never runs and the error code is left as it was.
- Frames are delivered in read order, up to the first failed read. After a failed read the chain is no longer armed.
- `send` on a link that is not ready never reaches `enqueue` and changes nothing.
- `shutdown` leaves the state and the listeners alone, so a second call changes nothing.

## Model

| member | source | states |
|---|---|---|
| DriverModel.Constructed | socketcan_interface/include/socketcan_interface/asio_base.h:67-69 | a new driver has the default state (closed, no error code, internal error 0), has notified, delivered and offered nothing, has a closed socket, no armed read and a reactor not stopped |
| DriverModel.SetErrorCode | socketcan_interface/include/socketcan_interface/asio_base.h:35-41 | only `error_code` is assigned; one notification of the full new state exactly when the code changed, none otherwise; frames, socket and reactor untouched |
| DriverModel.SetInternalError | socketcan_interface/include/socketcan_interface/asio_base.h:42-48 | only `internal_error` is assigned; notification exactly when it changed, carrying the full new state |
| DriverModel.SetLinkStatus | socketcan_interface/include/socketcan_interface/asio_base.h:50-56 | only `driver_state` is assigned; notification exactly when it changed, carrying the full new state |
| DriverModel.FrameReceived | socketcan_interface/include/socketcan_interface/asio_base.h:58-65 | without error: frame appended to the delivered frames, read re-armed, state and notifications untouched; with an error: the code is recorded (notified only on change), no frame delivered, read not re-armed |
| DriverModel.Send | socketcan_interface/include/socketcan_interface/asio_base.h:98-100 | succeeds iff the link is ready and enqueue accepts; when not ready the driver is unchanged and enqueue is never offered the frame |
| DriverModel.Shutdown | socketcan_interface/include/socketcan_interface/asio_base.h:102-108 | socket closed and reactor stopped afterwards; state, notifications, frames and armed read unchanged |
| DriverModel.Step | socketcan_interface/include/socketcan_interface/asio_base.h:58-65 | one reactor handler notifies the full new state exactly when the stored state changed, and nothing otherwise |
| DriverModel.Exec | socketcan_interface/include/socketcan_interface/asio_base.h:88-91 | while the reactor runs handlers, the notification log only grows, at most one entry per handler, never holds the same state twice in a row and ends at the stored state |
| DriverModel.ExecLogsVisits | socketcan_interface/include/socketcan_interface/asio_base.h:88-91 | over any sequence of handlers, the notifications appended are exactly the deduplicated sequence of stored states after each handler: every change once, in order, nothing else |
| DriverModel.DedupChangesOnly | socketcan_interface/include/socketcan_interface/asio_base.h:35-56 | the deduplicated path of states is a change-only run: consecutive entries differ, and the last is where the path ends |
| DriverModel.DedupAppend | socketcan_interface/include/socketcan_interface/asio_base.h:35-56 | deduplicating a path in two pieces: the second piece is compared from where the first ends |
| DriverModel.LogsVisitsCompose | socketcan_interface/include/socketcan_interface/asio_base.h:35-56 | consecutive stretches of setter calls compose: their notifications are the deduplication of the joined path |
| DriverModel.Run | socketcan_interface/include/socketcan_interface/asio_base.h:78-97 | ends with one unconditional notification equal to the stored state; before it the log grows by exactly the deduplicated path of states that run's setters and the reactor's handlers pass through; link status recomputed from the live socket; closed socket: closed set, one extra notification, reactor not started; open socket: open (if it was not already open) then ready notified first, error code equals the reactor's result, frames delivered in read order |
| DriverModel.Serve | socketcan_interface/include/socketcan_interface/asio_base.h:82-94 | the open-socket branch announces ready, records the reactor's error code, recomputes the status from the socket, notifies exactly the changes along its path of states, and delivers the frames of the successful reads before the first failed one |
| DriverModel.Start | socketcan_interface/include/socketcan_interface/asio_base.h:82-88 | from open: ready is set and notified once, the reactor is reset and a read is armed |
| DriverModel.Finish | socketcan_interface/include/socketcan_interface/asio_base.h:92-94 | after the reactor returns: only the error code (now `ec`) and the link status (now the socket's open status) change; internal error, frames, offers, socket, read and stop flag are untouched; exactly the changes of the two setter calls are notified |
| DriverModel.ChangesNotifiedTransitive | socketcan_interface/include/socketcan_interface/asio_base.h:35-56 | two runs of change-only notifications compose into one |
| DriverModel.ChangesNotifiedKeepsCoherent | socketcan_interface/include/socketcan_interface/asio_base.h:35-56 | if listeners last saw the stored state, they still do after any change-only run of setters |
| DriverModel.FramesDeliveredInReadOrder | socketcan_interface/include/socketcan_interface/asio_base.h:58-65 | over any sequence of reactor handlers, the delivered frames are exactly the successful reads before the first failure, in order; the read stays armed iff no read failed |
| DriverModel.StepReads | socketcan_interface/include/socketcan_interface/asio_base.h:58-65 | one handler delivers a frame only for a successful completion of an armed read, and disarms the read only on a failed one |
| DriverModel.ExecSnoc | socketcan_interface/include/socketcan_interface/asio_base.h:91 | running one more handler after a sequence is running the extended sequence |
| DriverModel.ShutdownIdempotent | socketcan_interface/include/socketcan_interface/asio_base.h:102-108 | shutdown twice equals shutdown once |
| DriverModel.ConstructedRefusesSend | socketcan_interface/include/socketcan_interface/asio_base.h:98-100 | a freshly constructed driver refuses every send and is left unchanged |
| AsioBase.AsioDriver.constructor | socketcan_interface/include/socketcan_interface/asio_base.h:67-69 | the object starts as the constructed model and satisfies its invariant |
| AsioBase.AsioDriver.SetErrorCode | socketcan_interface/include/socketcan_interface/asio_base.h:35-41 | in-place compare-and-assign with notification on change, equal to the model |
| AsioBase.AsioDriver.SetInternalError | socketcan_interface/include/socketcan_interface/asio_base.h:42-48 | in-place compare-and-assign with notification on change, equal to the model |
| AsioBase.AsioDriver.SetDriverState | socketcan_interface/include/socketcan_interface/asio_base.h:50-56 | in-place compare-and-assign with notification on change, equal to the model |
| AsioBase.AsioDriver.FrameReceived | socketcan_interface/include/socketcan_interface/asio_base.h:58-65 | the completion handler moves the object as the model's FrameReceived |
| AsioBase.AsioDriver.GetState | socketcan_interface/include/socketcan_interface/asio_base.h:74-77 | returns the stored state |
| AsioBase.AsioDriver.Enqueue | socketcan_interface/include/socketcan_interface/asio_base.h:30 | the transport is offered the frame and its answer is returned; nothing else changes |
| AsioBase.AsioDriver.Send | socketcan_interface/include/socketcan_interface/asio_base.h:98-100 | result and new state as the model's Send: enqueue reached only when ready |
| AsioBase.AsioDriver.Shutdown | socketcan_interface/include/socketcan_interface/asio_base.h:102-108 | closes the socket if open and stops the reactor, as the model's Shutdown |
| AsioBase.AsioDriver.Handle | socketcan_interface/include/socketcan_interface/asio_base.h:91 | one reactor handler moves the object as the model's Step |
| AsioBase.AsioDriver.RunReactor | socketcan_interface/include/socketcan_interface/asio_base.h:90-91 | the reactor's handler loop moves the object as the model's Exec |
| AsioBase.AsioDriver.Run | socketcan_interface/include/socketcan_interface/asio_base.h:78-97 | the blocking run moves the object exactly as the model's Run, keeping the listeners-up-to-date invariant |
| AsioBase.StateWaiter.constructor | socketcan_interface/include/socketcan_interface/asio_base.h:134-137 | the waiter starts from a snapshot of the driver's state |
| AsioBase.StateWaiter.UpdateState | socketcan_interface/include/socketcan_interface/asio_base.h:127-132 | the reported state becomes the waiter's stored state |
| AsioBase.ThreadedInterface.constructor | socketcan_interface/include/socketcan_interface/asio_base.h:183 | a fresh wrapped driver and no tracked thread |
| AsioBase.ThreadedInterface.Init | socketcan_interface/include/socketcan_interface/asio_base.h:162-168 | with a tracked thread: wrapped init not called, nothing changes, answer is the current readiness; otherwise wrapped init called once; on success one thread is spawned, the driver differs only in its now-open socket, and the start-up wait's answer is returned; on failure no thread and the current readiness is returned |
| AsioBase.ThreadedInterface.Shutdown | socketcan_interface/include/socketcan_interface/asio_base.h:169-176 | the driver is shut down and no thread is tracked afterwards, so a later Init spawns again |
| AsioBase.ThreadedInterface.Join | socketcan_interface/include/socketcan_interface/asio_base.h:177-181 | waits exactly when a thread is tracked, and keeps tracking it |

## Left out

- The boost::asio reactor is not modelled: `io_service_`, the `work` token, the second worker `post_thread` and the `post` of `dispatchFrame`. The reactor's run is a sequence of handlers applied one at a time, and a posted frame is counted as delivered when it is posted. With two workers, posted dispatches could in principle run concurrently; that is not captured.
- DriverModel.Run: does not require the reactor to return only after `shutdown`, although the work token makes it do so. Any sequence of handlers and any `ec` is allowed.
- The mutexes `state_mutex_` and `socket_mutex_` are not modelled, because the model is single-threaded. `state_mutex_` makes each setter and `getState` atomic. `socket_mutex_` is never locked in this file, and `shutdown`, `frameReceived` and `run`'s checks of the socket run unlocked, so treating them as atomic steps in one sequence is an assumption of the model. The final `dispatch(state_)` in `run` reads the state without the lock; that data race is not modelled.
- `StateWaiter::wait` and `wait_for` are not modelled: they are timed condition-variable waits. Their answer is the input `started` of `ThreadedInterface.Init`. The race between the snapshot and the listener subscription in the constructor is a concurrency matter and is also not modelled.
- AsioBase.ThreadedInterface.Init: the background thread's `run` is not executed. The model records that a thread was spawned and opens the transport, but the start-up wait's answer is an input, not derived from the driver.
- AsioBase.ThreadedInterface.Shutdown: the thread's `interrupt` and `join` are only modelled as clearing the tracked thread. In the source, `join` waits for the background `run` to finish its last steps (asio_base.h:92-96): record the reactor's `ec`, set the status from the now-closed socket and make the terminal notification. The contract instead says the state and the notification log are unchanged by shutdown; those tail steps are what `DriverModel.Run` and `DriverModel.Finish` state, but they are not composed into `ThreadedInterface.Shutdown`.
- `createMsgListener` and `createStateListener` are not modelled. They only pass through to the dispatchers; dispatcher.h is not part of this model.
- `triggerReadSome` and `enqueue` are not modelled as transport I/O. They are the concrete transport's, and the model keeps only the armed-read flag, the `offered` log and the `accepted` answer.
- The wrapped driver's `init` is not modelled beyond its answer. On success it is taken to open the socket (`AsioDriver.OpenSocket`). On failure the driver is left unchanged; any other effect it has is not captured.
- `socket_.cancel()` in `shutdown` is not modelled separately. The read it cancels completes later as a failed read completion event.
- `State::isReady()` is taken to mean `driver_state == ready`; interface.h is not part of this model.
- A frame is modelled as an identifier and its payload bytes. Its header flags are not modelled, because the core never looks inside a frame.
- The destructor `~AsioDriver` calls `shutdown`; object destruction is not modelled.
- The forwarding constructors of `ThreadedInterface` are not modelled.
