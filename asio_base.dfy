/** The classes of `asio_base.h`: the driver base, the state waiter and the threaded
    lifecycle decorator. Each method of `AsioDriver` is proved to move the driver exactly
    as the matching function of DriverModel says. */
module AsioBase {
  import opened DriverState
  import DM = DriverModel

  /** `AsioDriver`: the stored state, the transport handle's open flag, the armed read and
      the reactor's stop flag are fields; the dispatchers are ghost logs of what they
      were handed, and `offered` logs what was passed to the transport's `enqueue`. */
  class AsioDriver {
    var state: State
    ghost var notified: seq<State>
    ghost var delivered: seq<Frame>
    ghost var offered: seq<Frame>
    var socketOpen: bool
    var readArmed: bool
    var stopped: bool

    ghost function Model(): DM.Driver
      reads this
    {
      DM.Driver(state, notified, delivered, offered, socketOpen, readArmed, stopped)
    }

    /** Observers have always last been told the stored state. */
    ghost predicate Valid()
      reads this
    {
      DM.Coherent(Model())
    }

    /** `AsioDriver()`: the socket is constructed closed, the state is the default one. */
    constructor()
      ensures Valid() && Model() == DM.Constructed()
    {
      state := Initial;
      notified, delivered, offered := [], [], [];
      socketOpen, readArmed, stopped := false, false, false;
    }

    /** The concrete transport's `init` opening the handle (the transport is not part of
        this model; only the effect on the open flag is). */
    method OpenSocket()
      modifies this
      ensures socketOpen
      ensures state == old(state) && notified == old(notified) && delivered == old(delivered)
      ensures offered == old(offered) && readArmed == old(readArmed) && stopped == old(stopped)
    {
      socketOpen := true;
    }

    method SetErrorCode(error: ErrorCode)
      requires Valid()
      modifies this
      ensures Valid() && Model() == DM.SetErrorCode(old(Model()), error)
    {
      if state.errorCode != error {
        state := state.(errorCode := error);
        notified := notified + [state];
      }
    }

    method SetInternalError(code: uint32)
      requires Valid()
      modifies this
      ensures Valid() && Model() == DM.SetInternalError(old(Model()), code)
    {
      if state.internalError != code {
        state := state.(internalError := code);
        notified := notified + [state];
      }
    }

    method SetDriverState(status: LinkStatus)
      requires Valid()
      modifies this
      ensures Valid() && Model() == DM.SetLinkStatus(old(Model()), status)
    {
      if state.linkStatus != status {
        state := state.(linkStatus := status);
        notified := notified + [state];
      }
    }

    /** The completion handler of the armed read; `input` is the frame buffer the
        transport filled. */
    method FrameReceived(input: Frame, error: ErrorCode)
      requires Valid()
      modifies this
      ensures Valid() && Model() == DM.FrameReceived(old(Model()), input, error)
    {
      readArmed := false;
      if !error.Failed() {
        delivered := delivered + [input];  // dispatchFrame(input_) posts a copy
        readArmed := true;                 // triggerReadSome()
      } else {
        SetErrorCode(error);
      }
    }

    /** `getState()`: a snapshot of the stored state. */
    method GetState() returns (s: State)
      ensures s == state && s == Model().state
    {
      s := state;
    }

    /** The transport's `enqueue`; `accepted` is its answer. */
    method Enqueue(msg: Frame, accepted: bool) returns (ok: bool)
      modifies this
      ensures ok == accepted && offered == old(offered) + [msg]
      ensures state == old(state) && notified == old(notified) && delivered == old(delivered)
      ensures socketOpen == old(socketOpen) && readArmed == old(readArmed) && stopped == old(stopped)
    {
      offered := offered + [msg];
      ok := accepted;
    }

    method Send(msg: Frame, accepted: bool) returns (ok: bool)
      requires Valid()
      modifies this
      ensures Valid()
      ensures ok == DM.Send(old(Model()), msg, accepted).ok
      ensures Model() == DM.Send(old(Model()), msg, accepted).after
    {
      var s := GetState();
      ok := false;
      if s.linkStatus == Ready {
        ok := Enqueue(msg, accepted);
      }
    }

    method Shutdown()
      requires Valid()
      modifies this
      ensures Valid() && Model() == DM.Shutdown(old(Model()))
    {
      if socketOpen {
        socketOpen := false;  // socket_.cancel(); socket_.close()
      }
      stopped := true;        // io_service_.stop()
    }

    /** One completion handler run by the reactor. */
    method Handle(e: DM.Event)
      requires Valid()
      modifies this
      ensures Valid() && Model() == DM.Step(old(Model()), e)
    {
      match e
      case ReadCompleted(c) =>
        if readArmed {
          FrameReceived(c.input, c.error);
        }
      case SendRequested(msg, accepted) =>
        var _ := Send(msg, accepted);
      case ShutdownRequested =>
        Shutdown();
      case ErrorReported(error) =>
        SetErrorCode(error);
      case InternalErrorReported(code) =>
        SetInternalError(code);
      case LinkStatusReported(status) =>
        SetDriverState(status);
    }

    /** `io_service_.run(ec)` while a read is armed: the reactor runs the completion
        handlers `events` one at a time. */
    method RunReactor(events: seq<DM.Event>)
      requires Valid()
      modifies this
      ensures Valid() && Model() == DM.Exec(old(Model()), events)
    {
      ghost var start := Model();
      var i := 0;
      while i < |events|
        invariant 0 <= i <= |events|
        invariant Valid() && Model() == DM.Exec(start, events[..i])
      {
        DM.ExecSnoc(start, events[..i], events[i]);
        assert events[..i + 1] == events[..i] + [events[i]];
        Handle(events[i]);
        i := i + 1;
      }
      assert events[..i] == events;
    }

    /** `run()`. While it blocks in `io_service_.run(ec)` the reactor runs the handlers
        `events`; `ec` is the error the reactor returns with. */
    method Run(events: seq<DM.Event>, ec: ErrorCode)
      requires Valid()
      modifies this
      ensures Valid() && Model() == DM.Run(old(Model()), events, ec)
    {
      ghost var before := Model();
      SetDriverState(if socketOpen then Open else Closed);
      ghost var afterStatus := Model();
      var s := GetState();
      if s.linkStatus == Open {
        stopped := false;                  // io_service_.reset()
        SetDriverState(Ready);
        readArmed := true;                 // triggerReadSome()
        assert Model() == DM.Start(afterStatus);
        RunReactor(events);
        ghost var reactor := Model();
        SetErrorCode(ec);
        SetDriverState(if socketOpen then Open else Closed);
        assert Model() == DM.Finish(reactor, ec);
        assert Model() == DM.Serve(afterStatus, events, ec);
      }
      notified := notified + [state];  // state_dispatcher_.dispatch(state_)
    }
  }

  /** `StateWaiter`: the last state it has seen of the driver it watches. */
  class StateWaiter {
    var state: State

    /** Construction takes a snapshot of the driver's state. */
    constructor(driver: AsioDriver)
      ensures state == driver.state
    {
      state := driver.state;
    }

    /** The state listener's callback: remember the reported state. */
    method UpdateState(s: State)
      modifies this
      ensures state == s
    {
      state := s;
    }
  }

  /** `ThreadedInterface`: runs the wrapped driver's `run` on a background thread it
      tracks. `spawned` counts the threads started, `initCalls` logs the arguments
      passed to the wrapped driver's `init`. */
  class ThreadedInterface {
    const driver: AsioDriver
    var threadTracked: bool
    ghost var spawned: nat
    ghost var initCalls: seq<(string, bool)>

    ghost predicate Valid()
      reads this, driver
    {
      driver.Valid()
    }

    constructor()
      ensures Valid() && fresh(driver) && driver.Model() == DM.Constructed()
      ensures !threadTracked && spawned == 0 && initCalls == []
    {
      driver := new AsioDriver();
      threadTracked := false;
      spawned := 0;
      initCalls := [];
    }

    /** `init(device, loopback)`. `initOk` is what the wrapped driver's `init` answers and
        `started` what the one-second wait for `ready` answers. */
    method Init(device: string, loopback: bool, initOk: bool, started: bool) returns (ready: bool)
      requires Valid()
      modifies this, driver
      ensures Valid()
      // a tracked thread: the wrapped init is not called, nothing changes
      ensures old(threadTracked) ==>
        ready == driver.state.IsReady() && threadTracked && spawned == old(spawned) &&
        initCalls == old(initCalls) && driver.Model() == old(driver.Model())
      // no tracked thread: the wrapped init is called once
      ensures !old(threadTracked) ==> initCalls == old(initCalls) + [(device, loopback)]
      ensures !old(threadTracked) && initOk ==>
        threadTracked && spawned == old(spawned) + 1 && ready == started &&
        driver.Model() == old(driver.Model()).(socketOpen := true)
      ensures !old(threadTracked) && !initOk ==>
        !threadTracked && spawned == old(spawned) && ready == driver.state.IsReady() &&
        driver.Model() == old(driver.Model())
    {
      if !threadTracked {
        initCalls := initCalls + [(device, loopback)];
        if initOk {
          driver.OpenSocket();
          threadTracked := true;  // thread_.reset(new boost::thread(run_thread))
          spawned := spawned + 1;
          ready := started;       // StateWaiter::wait_for(ready, this, 1 s)
          return;
        }
      }
      var s := driver.GetState();
      ready := s.IsReady();
    }

    /** `shutdown()`: shut the driver down, then stop, join and forget the thread. */
    method Shutdown()
      requires Valid()
      modifies this, driver
      ensures Valid() && driver.Model() == DM.Shutdown(old(driver.Model()))
      ensures !threadTracked && spawned == old(spawned) && initCalls == old(initCalls)
    {
      driver.Shutdown();
      if threadTracked {
        threadTracked := false;  // thread_->interrupt(); thread_->join(); thread_.reset()
      }
    }

    /** `join()`: waits for the tracked thread, if any, and keeps tracking it. */
    method Join() returns (waited: bool)
      ensures waited == threadTracked
    {
      waited := threadTracked;
    }
  }
}
