/** A value-level model of `AsioDriver`: each operation maps the driver's observable
    situation to the next one. The classes in module AsioBase are proved against it. */
module DriverModel {
  import opened DriverState

  /** What an `AsioDriver` is at one moment: the stored state, every state handed to the
      state dispatcher and every frame handed to the frame dispatcher (in order), every
      frame offered to the transport's `enqueue`, whether the transport handle is open,
      whether a read is armed, and whether the reactor has been told to stop. */
  datatype Driver = Driver(
    state: State,
    notified: seq<State>,
    delivered: seq<Frame>,
    offered: seq<Frame>,
    socketOpen: bool,
    readArmed: bool,
    stopped: bool)

  /** The result of `send`, together with the driver afterwards. */
  datatype SendOutcome = SendOutcome(ok: bool, after: Driver)

  /** A completed read: the frame buffer `input_` and the error code of the completion. */
  datatype Completion = Completion(input: Frame, error: ErrorCode)

  /** What the reactor can run while `run` blocks in `io_service_.run(ec)`: the completion
      of the pending read, a `send` from another thread, a `shutdown`, or a concrete
      transport's handler calling one of the three protected setters. */
  datatype Event =
    | ReadCompleted(completion: Completion)
    | SendRequested(msg: Frame, accepted: bool)
    | ShutdownRequested
    | ErrorReported(error: ErrorCode)
    | InternalErrorReported(code: uint32)
    | LinkStatusReported(status: LinkStatus)

  /** A driver as the constructor leaves it: closed state, nothing notified, socket closed. */
  function Constructed(): (d: Driver)
    ensures d.state == Initial && d.notified == [] && Coherent(d)
    ensures d.delivered == [] && d.offered == [] && !d.socketOpen && !d.readArmed && !d.stopped
  {
    Driver(Initial, [], [], [], false, false, false)
  }

  /** The state observers have last been told about is the stored state (or nothing has
      been told yet and the state is still the initial one). */
  ghost predicate Coherent(d: Driver) {
    if d.notified == [] then d.state == Initial else d.notified[|d.notified| - 1] == d.state
  }

  /** Nothing but the stored state and the state-notification log differ. */
  ghost predicate SameIo(d: Driver, r: Driver) {
    r.delivered == d.delivered && r.offered == d.offered &&
    r.socketOpen == d.socketOpen && r.readArmed == d.readArmed && r.stopped == d.stopped
  }

  /** One compare-and-assign: a notification of the new state is sent exactly when the
      state changed, and none otherwise. */
  ghost predicate NotifiedOnChange(d: Driver, r: Driver) {
    if r.state == d.state then r.notified == d.notified else r.notified == d.notified + [r.state]
  }

  /** `news` is a run of notifications, starting from state `from`, in which every entry
      differs from the one before it (the first from `from`), and `now` is where it ends. */
  ghost predicate ChangesOnly(from: State, news: seq<State>, now: State) {
    (forall i :: 0 < i < |news| ==> news[i] != news[i - 1]) &&
    (news != [] ==> news[0] != from && news[|news| - 1] == now) &&
    (news == [] ==> now == from)
  }

  /** From `d` to `r`, the notification log only grew, and what was added reports each
      change of the stored state once, in order, and never a repeated state. */
  ghost predicate ChangesNotified(d: Driver, r: Driver) {
    d.notified <= r.notified && ChangesOnly(d.state, r.notified[|d.notified|..], r.state)
  }

  /** The last of `states`, or `from` if there are none. */
  function LastOr(from: State, states: seq<State>): State {
    if states == [] then from else states[|states| - 1]
  }

  /** `states` without the entries equal to the entry before them (the first entry is
      compared with `from`): what compare-and-assign setters notify when the stored state
      passes through `states`, starting from `from`. */
  function Dedup(from: State, states: seq<State>): seq<State>
    decreases |states|
  {
    if states == [] then []
    else if states[0] == from then Dedup(from, states[1..])
    else [states[0]] + Dedup(states[0], states[1..])
  }

  /** From `d` to `r` the stored state passed through `states`, and exactly the changes
      along that path were appended to the notification log. */
  ghost predicate LogsVisits(d: Driver, r: Driver, states: seq<State>) {
    r.notified == d.notified + Dedup(d.state, states) && r.state == LastOr(d.state, states)
  }

  /** `state_dispatcher_.dispatch(state_)`. */
  function Notify(d: Driver): Driver {
    d.(notified := d.notified + [d.state])
  }

  /** `setErrorCode`: compare, assign, notify only on change. */
  function SetErrorCode(d: Driver, error: ErrorCode): (r: Driver)
    ensures r.state == d.state.(errorCode := error)
    ensures NotifiedOnChange(d, r) && SameIo(d, r)
  {
    if d.state.errorCode != error then Notify(d.(state := d.state.(errorCode := error))) else d
  }

  /** `setInternalError`: compare, assign, notify only on change. */
  function SetInternalError(d: Driver, code: uint32): (r: Driver)
    ensures r.state == d.state.(internalError := code)
    ensures NotifiedOnChange(d, r) && SameIo(d, r)
  {
    if d.state.internalError != code then Notify(d.(state := d.state.(internalError := code))) else d
  }

  /** `setDriverState`: compare, assign, notify only on change. */
  function SetLinkStatus(d: Driver, status: LinkStatus): (r: Driver)
    ensures r.state == d.state.(linkStatus := status)
    ensures NotifiedOnChange(d, r) && SameIo(d, r)
  {
    if d.state.linkStatus != status then Notify(d.(state := d.state.(linkStatus := status))) else d
  }

  /** `frameReceived`: the completion consumes the pending read; on success the frame is
      handed on and a new read is armed, on failure the error is recorded and the read
      chain ends. */
  function FrameReceived(d: Driver, input: Frame, error: ErrorCode): (r: Driver)
    ensures !error.Failed() ==>
      r.state == d.state && r.notified == d.notified &&
      r.delivered == d.delivered + [input] && r.readArmed &&
      r.offered == d.offered && r.socketOpen == d.socketOpen && r.stopped == d.stopped
    ensures error.Failed() ==>
      r.state == d.state.(errorCode := error) && NotifiedOnChange(d, r) &&
      r.delivered == d.delivered && !r.readArmed &&
      r.offered == d.offered && r.socketOpen == d.socketOpen && r.stopped == d.stopped
  {
    if !error.Failed() then
      d.(delivered := d.delivered + [input], readArmed := true)
    else
      SetErrorCode(d.(readArmed := false), error)
  }

  /** `send`: succeeds iff the link is ready and `enqueue` accepts the frame (`accepted`
      is the transport's answer); when the link is not ready `enqueue` is not reached. */
  function Send(d: Driver, msg: Frame, accepted: bool): (r: SendOutcome)
    ensures r.ok <==> d.state.IsReady() && accepted
    ensures !d.state.IsReady() ==> r.after == d
    ensures d.state.IsReady() ==> r.after == d.(offered := d.offered + [msg])
  {
    if d.state.linkStatus == Ready then SendOutcome(accepted, d.(offered := d.offered + [msg]))
    else SendOutcome(false, d)
  }

  /** `shutdown`: the transport handle ends up closed and the reactor stopped; the state
      and the observers are left alone, so a second call changes nothing. */
  function Shutdown(d: Driver): (r: Driver)
    ensures !r.socketOpen && r.stopped
    ensures r.state == d.state && r.notified == d.notified && r.delivered == d.delivered
    ensures r.offered == d.offered && r.readArmed == d.readArmed
  {
    d.(socketOpen := false, stopped := true)
  }

  /** One handler run by the reactor. A read completion exists only while a read is armed. */
  function Step(d: Driver, e: Event): (r: Driver)
    ensures NotifiedOnChange(d, r) && ChangesNotified(d, r) && |r.notified| <= |d.notified| + 1
  {
    var r := match e
      case ReadCompleted(c) => if d.readArmed then FrameReceived(d, c.input, c.error) else d
      case SendRequested(msg, accepted) => Send(d, msg, accepted).after
      case ShutdownRequested => Shutdown(d)
      case ErrorReported(error) => SetErrorCode(d, error)
      case InternalErrorReported(code) => SetInternalError(d, code)
      case LinkStatusReported(status) => SetLinkStatus(d, status);
    NotifiedOnChangeNotifies(d, r);
    r
  }

  /** The reactor running `events` one after the other. */
  function Exec(d: Driver, events: seq<Event>): (r: Driver)
    ensures ChangesNotified(d, r) && |r.notified| <= |d.notified| + |events|
    decreases |events|
  {
    if events == [] then
      assert d.notified[|d.notified|..] == [];
      d
    else
      var m := Step(d, events[0]);
      var r := Exec(m, events[1..]);
      ChangesNotifiedTransitive(d, m, r);
      r
  }

  /** While the reactor runs handlers, exactly the changes of the stored state along the
      states it passes through are notified: every change once, in order, nothing else. */
  lemma {:induction false} ExecLogsVisits(d: Driver, events: seq<Event>)
    ensures LogsVisits(d, Exec(d, events), Visited(d, events))
    decreases |events|
  {
    if events != [] {
      var m := Step(d, events[0]);
      ExecLogsVisits(m, events[1..]);
      NotifiedOnChangeLogs(d, m);
      LogsVisitsCompose(d, m, Exec(m, events[1..]), [m.state], Visited(m, events[1..]));
    }
  }

  /** The stored state after each handler of `events`, in order. */
  ghost function Visited(d: Driver, events: seq<Event>): seq<State>
    decreases |events|
  {
    if events == [] then []
    else
      var m := Step(d, events[0]);
      [m.state] + Visited(m, events[1..])
  }

  /** The stored state after each setter call of `run`, in order. */
  ghost function RunVisited(d: Driver, events: seq<Event>, ec: ErrorCode): seq<State> {
    var s1 := d.state.(linkStatus := if d.socketOpen then Open else Closed);
    if !d.socketOpen then [s1] else [s1] + ServeVisited(SetLinkStatus(d, Open), events, ec)
  }

  /** The stored state after each setter call and handler of `run` on an open socket. */
  ghost function ServeVisited(d: Driver, events: seq<Event>, ec: ErrorCode): seq<State>
    requires d.state.linkStatus == Open
  {
    var started := Start(d);
    var reactor := Exec(started, events);
    var s3 := reactor.state.(errorCode := ec);
    [started.state] + Visited(started, events) +
    [s3, s3.(linkStatus := if reactor.socketOpen then Open else Closed)]
  }

  /** `run`. The socket's open status is read from the driver; while the reactor runs it
      handles `events` (from the first armed read on); `ec` is what `io_service_.run`
      reports when it returns. */
  function Run(d: Driver, events: seq<Event>, ec: ErrorCode): (r: Driver)
    // the final notification is unconditional and reports the stored state
    ensures |r.notified| > |d.notified| && r.notified[|r.notified| - 1] == r.state
    // before it, every change is notified once and no state twice in a row
    ensures ChangesNotified(d, r.(notified := r.notified[..|r.notified| - 1]))
    // exactly: the changes along the states run's setters pass through
    ensures LogsVisits(d, r.(notified := r.notified[..|r.notified| - 1]), RunVisited(d, events, ec))
    // the link status is recomputed from the socket as it is at the end
    ensures r.state.linkStatus == (if r.socketOpen then Open else Closed)
    // a closed socket: status closed, the terminal notification, the reactor never started
    ensures !d.socketOpen ==>
      SameIo(d, r) && r.state == d.state.(linkStatus := Closed) &&
      r.notified == d.notified + (if d.state.linkStatus == Closed then [] else [r.state]) + [r.state]
    // an open socket: open, then ready is announced before anything the reactor does
    ensures d.socketOpen ==>
      var k := |d.notified| + (if d.state.linkStatus == Open then 0 else 1);
      k < |r.notified| - 1 && r.notified[k] == d.state.(linkStatus := Ready) &&
      (k > |d.notified| ==> r.notified[|d.notified|] == d.state.(linkStatus := Open))
    // an open socket: the reactor's error is recorded, frames arrive in read order
    ensures d.socketOpen ==>
      r.state.errorCode == ec &&
      r.delivered == d.delivered + FramesBeforeFailure(Completions(events))
  {
    var d1 := SetLinkStatus(d, if d.socketOpen then Open else Closed);
    NotifiedOnChangeNotifies(d, d1);
    NotifiedOnChangeLogs(d, d1);
    if d1.state.linkStatus == Open then
      var s := Serve(d1, events, ec);
      ChangesNotifiedTransitive(d, d1, s);
      LogsVisitsCompose(d, d1, s, [d1.state], ServeVisited(d1, events, ec));
      TerminalNotify(s);
      assert d1.notified <= s.notified;
      Notify(s)
    else
      TerminalNotify(d1);
      Notify(d1)
  }

  /** `run` on an open socket, up to its final notification: start, let the reactor run
      `events`, then record `ec` and the socket's open status. */
  function Serve(d: Driver, events: seq<Event>, ec: ErrorCode): (r: Driver)
    requires d.state.linkStatus == Open
    ensures ChangesNotified(d, r) && d.notified + [d.state.(linkStatus := Ready)] <= r.notified
    ensures r.state.errorCode == ec && r.state.linkStatus == (if r.socketOpen then Open else Closed)
    ensures r.delivered == d.delivered + FramesBeforeFailure(Completions(events))
    ensures LogsVisits(d, r, ServeVisited(d, events, ec))
  {
    var d2 := Start(d);
    var d3 := Exec(d2, events);
    var r := Finish(d3, ec);
    ExecLogsVisits(d2, events);
    LogsVisitsCompose(d, d2, d3, [d2.state], Visited(d2, events));
    LogsVisitsCompose(d, d3, r, [d2.state] + Visited(d2, events), [d3.state.(errorCode := ec), r.state]);
    FramesDeliveredInReadOrder(d2, events);
    ChangesNotifiedTransitive(d, d2, d3);
    ChangesNotifiedTransitive(d, d3, r);
    assert d2.notified <= d3.notified <= r.notified;
    r
  }

  /** The start of `run` on an open socket: `io_service_.reset()`, `setDriverState(ready)`
      and the first `triggerReadSome()`. */
  function Start(d: Driver): (r: Driver)
    requires d.state.linkStatus == Open
    ensures ChangesNotified(d, r) && r.notified == d.notified + [r.state] && LogsVisits(d, r, [r.state])
    ensures r.state == d.state.(linkStatus := Ready)
    ensures r.readArmed && !r.stopped && r.socketOpen == d.socketOpen && r.delivered == d.delivered
  {
    var r := SetLinkStatus(d.(stopped := false), Ready).(readArmed := true);
    NotifiedOnChangeNotifies(d, r);
    NotifiedOnChangeLogs(d, r);
    r
  }

  /** The end of `run` on an open socket: `setErrorCode(ec)`, then the link status from
      the socket's current open status. */
  function Finish(d: Driver, ec: ErrorCode): (r: Driver)
    ensures r.state == d.state.(errorCode := ec, linkStatus := if d.socketOpen then Open else Closed)
    ensures SameIo(d, r) && r.state.linkStatus == (if r.socketOpen then Open else Closed)
    ensures ChangesNotified(d, r) && LogsVisits(d, r, [d.state.(errorCode := ec), r.state])
  {
    var m := SetErrorCode(d, ec);
    var r := SetLinkStatus(m, if m.socketOpen then Open else Closed);
    NotifiedOnChangeNotifies(d, m);
    NotifiedOnChangeNotifies(m, r);
    ChangesNotifiedTransitive(d, m, r);
    NotifiedOnChangeLogs(d, m);
    NotifiedOnChangeLogs(m, r);
    LogsVisitsCompose(d, m, r, [m.state], [r.state]);
    r
  }

  /** Dropping the final notification gives back the driver before it. */
  lemma TerminalNotify(m: Driver)
    ensures Notify(m).notified[..|m.notified|] == m.notified
    ensures Notify(m).(notified := m.notified) == m
  {
  }

  /** The read completions among `events`, in order. */
  function Completions(events: seq<Event>): seq<Completion> {
    if events == [] then []
    else (if events[0].ReadCompleted? then [events[0].completion] else []) + Completions(events[1..])
  }

  /** The frames of the successful completions that precede the first failed one. */
  function FramesBeforeFailure(cs: seq<Completion>): seq<Frame> {
    if cs == [] || cs[0].error.Failed() then [] else [cs[0].input] + FramesBeforeFailure(cs[1..])
  }

  /** No completion in `cs` failed. */
  predicate AllSucceed(cs: seq<Completion>) {
    forall i :: 0 <= i < |cs| ==> !cs[i].error.Failed()
  }

  /** A single compare-and-assign, or no notification at all, is a change-only run. */
  lemma NotifiedOnChangeNotifies(d: Driver, r: Driver)
    requires NotifiedOnChange(d, r) || (r.state == d.state && r.notified == d.notified)
    ensures ChangesNotified(d, r)
  {
  }

  /** A single compare-and-assign appends the deduplicated one-state path. */
  lemma NotifiedOnChangeLogs(d: Driver, r: Driver)
    requires NotifiedOnChange(d, r)
    ensures LogsVisits(d, r, [r.state])
  {
  }

  /** Deduplicating a path in two pieces: the second piece starts from where the first ends. */
  lemma {:induction false} DedupAppend(from: State, s: seq<State>, t: seq<State>)
    ensures Dedup(from, s + t) == Dedup(from, s) + Dedup(LastOr(from, s), t)
    decreases |s|
  {
    if s == [] {
      assert s + t == t;
    } else {
      assert (s + t)[0] == s[0] && (s + t)[1..] == s[1..] + t;
      DedupAppend(s[0], s[1..], t);
      assert LastOr(s[0], s[1..]) == LastOr(from, s);
    }
  }

  /** Paths of visited states compose, and so do the notifications they cause. */
  lemma LogsVisitsCompose(a: Driver, b: Driver, c: Driver, s: seq<State>, t: seq<State>)
    requires LogsVisits(a, b, s) && LogsVisits(b, c, t)
    ensures LogsVisits(a, c, s + t)
  {
    DedupAppend(a.state, s, t);
    if t == [] {
      assert s + t == s;
    } else {
      assert (s + t)[|s + t| - 1] == t[|t| - 1];
    }
  }

  /** The deduplicated path is a change-only run of notifications: consecutive entries
      differ, the first differs from the start and the last is where the path ends. */
  lemma {:induction false} DedupChangesOnly(from: State, s: seq<State>)
    ensures ChangesOnly(from, Dedup(from, s), LastOr(from, s))
    decreases |s|
  {
    if s != [] {
      DedupChangesOnly(if s[0] == from then from else s[0], s[1..]);
      if s[0] != from {
        var e := Dedup(s[0], s[1..]);
        var u := [s[0]] + e;
        forall i | 0 < i < |u| ensures u[i] != u[i - 1] {
          if i == 1 { assert u[1] == e[0] && u[0] == s[0]; }
          else { assert u[i] == e[i - 1] && u[i - 1] == e[i - 2]; }
        }
      }
    }
  }

  /** Notification runs compose: a change-only run followed by another is change-only. */
  lemma ChangesNotifiedTransitive(a: Driver, b: Driver, c: Driver)
    requires ChangesNotified(a, b) && ChangesNotified(b, c)
    ensures ChangesNotified(a, c)
  {
  }

  /** Observers that were up to date stay up to date across any change-only run. */
  lemma ChangesNotifiedKeepsCoherent(d: Driver, r: Driver)
    requires Coherent(d) && ChangesNotified(d, r)
    ensures Coherent(r)
  {
  }

  /** Frames are delivered in the order they were read, up to the first failed read, and
      the read chain stays armed exactly as long as no read has failed. */
  lemma {:induction false} FramesDeliveredInReadOrder(d: Driver, events: seq<Event>)
    ensures Exec(d, events).delivered ==
      d.delivered + (if d.readArmed then FramesBeforeFailure(Completions(events)) else [])
    ensures Exec(d, events).readArmed == (d.readArmed && AllSucceed(Completions(events)))
    decreases |events|
  {
    if events != [] {
      var e, rest := events[0], events[1..];
      var m := Step(d, e);
      FramesDeliveredInReadOrder(m, rest);
      StepReads(d, e);
      var cs := Completions(rest);
      assert Exec(d, events) == Exec(m, rest);
      if e.ReadCompleted? {
        assert Completions(events) == [e.completion] + cs;
        CompletionsCons(e.completion, cs);
        if d.readArmed && !e.completion.error.Failed() {
          assert m.delivered == d.delivered + [e.completion.input] && m.readArmed;
          assert Exec(m, rest).delivered == (d.delivered + [e.completion.input]) + FramesBeforeFailure(cs);
        } else {
          assert m.delivered == d.delivered && !m.readArmed;
        }
      } else {
        assert Completions(events) == cs;
        assert m.delivered == d.delivered && m.readArmed == d.readArmed;
      }
    }
  }

  /** What one handler does to the delivered frames and to the read chain. */
  lemma StepReads(d: Driver, e: Event)
    ensures Step(d, e).delivered ==
      d.delivered + (if d.readArmed && e.ReadCompleted? && !e.completion.error.Failed() then [e.completion.input] else [])
    ensures Step(d, e).readArmed == (d.readArmed && !(e.ReadCompleted? && e.completion.error.Failed()))
  {
  }

  lemma CompletionsCons(c: Completion, cs: seq<Completion>)
    ensures FramesBeforeFailure([c] + cs) == if c.error.Failed() then [] else [c.input] + FramesBeforeFailure(cs)
    ensures AllSucceed([c] + cs) == (!c.error.Failed() && AllSucceed(cs))
  {
  }

  /** Running one more event after a sequence of them is running the longer sequence. */
  lemma {:induction false} ExecSnoc(d: Driver, events: seq<Event>, e: Event)
    ensures Exec(d, events + [e]) == Step(Exec(d, events), e)
    decreases |events|
  {
    if events == [] {
      assert [] + [e] == [e];
      assert [e][1..] == [];
    } else {
      assert (events + [e])[0] == events[0];
      assert (events + [e])[1..] == events[1..] + [e];
      ExecSnoc(Step(d, events[0]), events[1..], e);
    }
  }

  /** `shutdown` twice is `shutdown` once. */
  lemma ShutdownIdempotent(d: Driver)
    ensures Shutdown(Shutdown(d)) == Shutdown(d)
  {
  }

  /** A freshly constructed driver refuses to send, whatever the transport would say. */
  lemma ConstructedRefusesSend(msg: Frame, accepted: bool)
    ensures !Send(Constructed(), msg, accepted).ok
    ensures Send(Constructed(), msg, accepted).after == Constructed()
  {
  }
}
