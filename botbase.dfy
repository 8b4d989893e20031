/**
 * The runtime part of the bot base class: the token check of the constructor and
 * the set of tracked background tasks with its one-shot "work complete" future.
 */
module BotBase {
  import opened Wrappers

  /** An asyncio future used as a one-shot signal: not yet created, pending, or resolved. */
  datatype Signal = NotCreated | Pending | Resolved

  /** The request-path prefix `"/bot%s" % token`, or `ValueError` for an empty or non-string token (`None` stands for any non-string). */
  function TokenPath(token: Option<string>): (r: Result<string>)
    ensures r.Err? <==> token.None? || token.value == ""
    ensures r.Err? ==> r.error == ValueError
    ensures r.Ok? ==> |r.value| > 4 && r.value[..4] == "/bot" && r.value[4..] == token.value
  {
    if token.None? || token.value == "" then Err(ValueError) else Ok("/bot" + token.value)
  }

  /** Resolving a signal with `set_result`: a missing future raises `AttributeError`, a resolved one `InvalidStateError`. */
  function SetResult(s: Signal): (r: Result<Signal>)
    ensures r.Ok? <==> s == Pending
    ensures r.Ok? ==> r.value == Resolved
    ensures s == NotCreated ==> r == Err(AttributeError)
    ensures s == Resolved ==> r == Err(InvalidStateError)
  {
    match s
    case NotCreated => Err(AttributeError)
    case Pending => Ok(Resolved)
    case Resolved => Err(InvalidStateError)
  }

  /** The tracked-task state: the task set and the "work complete" future. */
  datatype Lifecycle = Lifecycle(tasks: set<TaskId>, workComplete: Signal)

  /** The state after a call together with the exception it raised, if any; changes made before the raise are kept. */
  datatype Effect = Effect(state: Lifecycle, error: Option<PyError>)

  /** `add_tasks(t)` followed later by `t`'s done-callback `complete_work(t)`. */
  datatype LifecycleEvent = Track(task: TaskId) | Finish(task: TaskId)

  /**
   * `complete_work(t)`: discard `t`; if no task is left, resolve the future. The
   * future is resolved exactly when the set becomes empty while it is pending; when
   * `set_result` raises, the discard has already happened.
   */
  function CompleteWorkStep(s: Lifecycle, t: TaskId): (r: Effect)
    ensures r.state.tasks == s.tasks - {t}
    ensures s.tasks - {t} != {} ==> r == Effect(Lifecycle(s.tasks - {t}, s.workComplete), None)
    ensures s.tasks - {t} == {} && s.workComplete == Pending ==> r == Effect(Lifecycle({}, Resolved), None)
    ensures s.tasks - {t} == {} && s.workComplete == NotCreated ==> r == Effect(Lifecycle({}, NotCreated), Some(AttributeError))
    ensures s.tasks - {t} == {} && s.workComplete == Resolved ==> r == Effect(Lifecycle({}, Resolved), Some(InvalidStateError))
  {
    var rest := s.tasks - {t};
    if rest != {} then Effect(Lifecycle(rest, s.workComplete), None)
    else match SetResult(s.workComplete)
      case Ok(w) => Effect(Lifecycle(rest, w), None)
      case Err(e) => Effect(Lifecycle(rest, s.workComplete), Some(e))
  }

  /** One event. Only `complete_work` raises, and only a pending future ever changes, to resolved, on an empty set. */
  function ApplyEvent(s: Lifecycle, e: LifecycleEvent): (r: Effect)
    ensures e.Track? ==> r == Effect(Lifecycle(s.tasks + {e.task}, s.workComplete), None)
    ensures e.Finish? ==> r.state.tasks == s.tasks - {e.task}
    ensures r.state.workComplete != s.workComplete ==>
      e.Finish? && s.workComplete == Pending && r.state.workComplete == Resolved && r.state.tasks == {}
    ensures r.error.Some? ==> e.Finish? && r.state.workComplete == s.workComplete
  {
    match e
    case Track(t) => Effect(Lifecycle(s.tasks + {t}, s.workComplete), None)
    case Finish(t) => CompleteWorkStep(s, t)
  }

  /** The final state of a replay and the exceptions raised on the way, in order. */
  datatype Trace = Trace(state: Lifecycle, errors: seq<PyError>)

  /**
   * Replaying events in order. An exception raised by a done-callback is only logged
   * by the event loop, so later events are still processed from the state it left.
   */
  function Replay(s: Lifecycle, events: seq<LifecycleEvent>): (r: Trace)
    ensures |r.errors| <= |events|
    ensures (forall k :: 0 <= k < |events| ==> events[k].Track?) ==> r.errors == []
    decreases |events|
  {
    if events == [] then Trace(s, [])
    else
      var e := ApplyEvent(s, events[0]);
      var rest := Replay(e.state, events[1..]);
      assert forall k :: 0 <= k < |events| - 1 ==> events[1..][k] == events[k + 1];
      Trace(rest.state, (if e.error.Some? then [e.error.value] else []) + rest.errors)
  }

  /** The number of events of a replay that resolve the future. */
  function Resolutions(s: Lifecycle, events: seq<LifecycleEvent>): nat
    decreases |events|
  {
    if events == [] then 0
    else
      var s' := ApplyEvent(s, events[0]).state;
      (if s.workComplete != Resolved && s'.workComplete == Resolved then 1 else 0) + Resolutions(s', events[1..])
  }

  lemma {:induction false} NoResolutionAfterResolved(s: Lifecycle, events: seq<LifecycleEvent>)
    requires s.workComplete == Resolved
    ensures Resolutions(s, events) == 0
    decreases |events|
  {
    if events != [] {
      NoResolutionAfterResolved(ApplyEvent(s, events[0]).state, events[1..]);
    }
  }

  /** Whatever the events, including ones after a raising callback, the "work complete" future is resolved at most once. */
  lemma {:induction false} ResolvedAtMostOnce(s: Lifecycle, events: seq<LifecycleEvent>)
    ensures Resolutions(s, events) <= 1
    decreases |events|
  {
    if events != [] {
      var s' := ApplyEvent(s, events[0]).state;
      if s.workComplete != Resolved && s'.workComplete == Resolved {
        NoResolutionAfterResolved(s', events[1..]);
      } else {
        ResolvedAtMostOnce(s', events[1..]);
      }
    }
  }

  /**
   * A replay ends with the future resolved exactly when it started resolved or one of
   * its events resolved it: every event is processed, also after a raising callback.
   */
  lemma {:induction false} ReplayResolved(s: Lifecycle, events: seq<LifecycleEvent>)
    ensures Replay(s, events).state.workComplete == Resolved <==>
      s.workComplete == Resolved || Resolutions(s, events) == 1
    decreases |events|
  {
    if events != [] {
      var s' := ApplyEvent(s, events[0]).state;
      ReplayResolved(s', events[1..]);
      ResolvedAtMostOnce(s', events[1..]);
      if s'.workComplete == Resolved {
        NoResolutionAfterResolved(s', events[1..]);
      }
    }
  }

  /**
   * Once resolved, the next time the task set empties `complete_work` raises
   * `InvalidStateError`; the task is still discarded and the future stays resolved.
   */
  lemma SecondResolutionRaises(t: TaskId)
    ensures Replay(Lifecycle({}, Pending), [Track(t), Finish(t), Track(t), Finish(t)]) ==
      Trace(Lifecycle({}, Resolved), [InvalidStateError])
  {
    var none: set<TaskId> := {};
    var es := [Track(t), Finish(t), Track(t), Finish(t)];
    assert none + {t} == {t} && {t} - {t} == none;
    assert es[1..][1..][1..][1..] == [];
    assert Replay(Lifecycle(none, Resolved), es[3..]) == Trace(Lifecycle(none, Resolved), [InvalidStateError]);
    assert Replay(Lifecycle(none, Resolved), es[2..]) == Trace(Lifecycle(none, Resolved), [InvalidStateError]);
  }

  class Bot {
    /** the request path prefix `"/bot" + token` */
    const token: string
    var isRunning: bool
    var tasks: set<TaskId>
    var workComplete: Signal
    var stopSession: Signal

    /** `BotBase.__init__` after its token check succeeded. */
    constructor (path: string)
      ensures token == path && !isRunning && tasks == {}
      ensures workComplete == NotCreated && stopSession == NotCreated
    {
      token := path;
      isRunning := false;
      tasks := {};
      workComplete := NotCreated;
      stopSession := NotCreated;
    }

    /** `BotBase(token)`: `ValueError` for an empty or non-string token, otherwise a bot with path `"/bot" + token`. */
    static method Create(token: Option<string>) returns (r: Result<Bot>)
      ensures r.Err? <==> TokenPath(token).Err?
      ensures r.Err? ==> r.error == ValueError
      ensures r.Ok? ==> fresh(r.value) && r.value.token == TokenPath(token).value
      ensures r.Ok? ==> r.value.tasks == {} && r.value.workComplete == NotCreated && !r.value.isRunning
    {
      match TokenPath(token)
      case Err(e) =>
        r := Err(e);
      case Ok(path) =>
        var bot := new Bot(path);
        r := Ok(bot);
    }

    function State(): Lifecycle
      reads this
    {
      Lifecycle(tasks, workComplete)
    }

    /** The state `run` sets up before it awaits the stop signal. */
    method Start()
      modifies this`isRunning, this`stopSession, this`workComplete
      ensures isRunning && stopSession == Pending && workComplete == Pending
    {
      isRunning := true;
      stopSession := Pending;
      workComplete := Pending;
    }

    /** `add_tasks(*ts)`: every task joins the tracked set. */
    method AddTasks(ts: seq<TaskId>)
      modifies this`tasks
      ensures tasks == old(tasks) + set t | t in ts
    {
      for i := 0 to |ts|
        invariant tasks == old(tasks) + set t | t in ts[..i]
      {
        assert ts[..i + 1] == ts[..i] + [ts[i]];
        tasks := tasks + {ts[i]};
      }
      assert ts[..|ts|] == ts;
    }

    /** `complete_work(t)`, the done-callback of every tracked task. */
    method CompleteWork(t: TaskId) returns (err: Option<PyError>)
      modifies this`tasks, this`workComplete
      ensures Effect(State(), err) == CompleteWorkStep(old(State()), t)
    {
      tasks := tasks - {t};
      err := None;
      if tasks == {} {
        match SetResult(workComplete)
        case Ok(w) => workComplete := w;
        case Err(e) => err := Some(e);
      }
    }

    /** `stop_session`: resolve the stop signal. */
    method StopSession() returns (err: Option<PyError>)
      modifies this`stopSession
      ensures SetResult(old(stopSession)).Ok? ==> err == None && stopSession == Resolved
      ensures SetResult(old(stopSession)).Err? ==> err == Some(SetResult(old(stopSession)).error) && stopSession == old(stopSession)
    {
      match SetResult(stopSession)
      case Ok(s) =>
        stopSession := s;
        err := None;
      case Err(e) =>
        err := Some(e);
    }
  }

  /** `complete_work` resolves the future even though no stop was requested. */
  method ResolvesWithoutStop() returns (bot: Bot)
    ensures bot.stopSession == Pending && bot.workComplete == Resolved
  {
    bot := new Bot("/bot1");
    bot.Start();
    bot.AddTasks([7]);
    var err := bot.CompleteWork(7);
  }
}
