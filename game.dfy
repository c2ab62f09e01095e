/**
 * The render-loop lifecycle of `Game`: `run`, `stop`, `reset` and the per-frame tick.
 *
 * The host's animation scheduler is modelled abstractly: `request_animation_frame`
 * hands out fresh ids from a counter and queues the frame, `cancel_animation_frame`
 * removes the queued id, and the host fires only queued ids. Everything the game
 * does to the outside (scheduler calls, calls into the logic, dispatched events) is
 * appended to a trace.
 */
module GameLoop {
  import opened Logic
  import opened Render

  /** The two lifecycle events; "running" is dispatched on both start and stop. */
  const RunningEvent: string := "running"
  const FrameEvent: string := "frame"

  datatype Effect =
    | Dispatched(name: string)  // an event dispatched on the attached event target
    | SetupCalled(now: real)    // `GameLogic::setup` at time `now`
    | Updated(now: real)        // `GameLogic::update` at time `now`
    | Drew                      // `GameLogic::draw`
    | Requested(id: int)        // `request_animation_frame` returned `id`
    | Cancelled(id: int)        // `cancel_animation_frame(id)`

  /**
   * The state `run`, `stop` and the tick act on: the game's `request_id` slot, whether
   * `post_construct` has attached an event target, the scheduler's next id and queue,
   * and the trace of effects so far.
   */
  datatype Loop = Loop(pending: Option<int>, nextId: int, scheduled: set<int>, attached: bool, trace: seq<Effect>)

  /** How many times an effect occurs in a trace. */
  function Count(t: seq<Effect>, e: Effect): nat
    decreases |t|
  {
    if t == [] then 0 else (if t[0] == e then 1 else 0) + Count(t[1..], e)
  }

  lemma {:induction false} CountAppend(t: seq<Effect>, u: seq<Effect>, e: Effect)
    ensures Count(t + u, e) == Count(t, e) + Count(u, e)
    decreases |t|
  {
    if t == [] {
      assert t + u == u;
    } else {
      assert (t + u)[1..] == t[1..] + u;
      CountAppend(t[1..], u, e);
    }
  }

  /** How many `setup` calls a trace records, at any time. */
  function Setups(t: seq<Effect>): nat
    decreases |t|
  {
    if t == [] then 0 else (if t[0].SetupCalled? then 1 else 0) + Setups(t[1..])
  }

  lemma {:induction false} SetupsAppend(t: seq<Effect>, u: seq<Effect>)
    ensures Setups(t + u) == Setups(t) + Setups(u)
    decreases |t|
  {
    if t == [] {
      assert t + u == u;
    } else {
      assert (t + u)[1..] == t[1..] + u;
      SetupsAppend(t[1..], u);
    }
  }

  /** One effect holds a `setup` call exactly when it is one. */
  lemma SetupsOfOne(e: Effect)
    ensures Setups([e]) == (if e.SetupCalled? then 1 else 0)
  {
    assert [e][1..] == [];
  }

  /** Two effects hold as many `setup` calls as each of them does. */
  lemma SetupsOfPair(e0: Effect, e1: Effect)
    ensures Setups([e0, e1]) == (if e0.SetupCalled? then 1 else 0) + (if e1.SetupCalled? then 1 else 0)
  {
    assert [e0, e1][1..] == [e1];
    SetupsOfOne(e1);
  }

  /** One effect is the counted effect once or not at all. */
  lemma CountOfOne(e: Effect, x: Effect)
    ensures Count([e], x) == (if e == x then 1 else 0)
  {
    assert [e][1..] == [];
  }

  /** Notifying listeners never calls `setup`. */
  lemma SetupsOfNotify(s: Loop, name: string)
    ensures Setups(Notify(s, name)) == 0
  {
    if s.attached {
      SetupsOfOne(Dispatched(name));
    }
  }

  /** Notifying listeners dispatches the event once when a target is attached, else never. */
  lemma CountOfNotify(s: Loop, name: string)
    ensures Count(Notify(s, name), Dispatched(name)) == (if s.attached then 1 else 0)
  {
    if s.attached {
      CountOfOne(Dispatched(name), Dispatched(name));
    }
  }

  /** The loop is running exactly when a frame request is pending. */
  predicate Running(s: Loop)
  {
    s.pending.Some?
  }

  /**
   * What holds at every point the game's own code can be entered: the host has at
   * most the pending frame queued, and every id handed out so far is below the
   * scheduler's counter, so the next id is fresh.
   */
  ghost predicate Sound(s: Loop)
  {
    && s.scheduled <= (if s.pending.Some? then {s.pending.value} else {})
    && (s.pending.Some? ==> s.pending.value < s.nextId)
    && forall i :: 0 <= i < |s.trace| && s.trace[i].Requested? ==> s.trace[i].id < s.nextId
  }

  /**
   * What holds between two host callbacks: exactly the pending frame is queued
   * (none when idle). Inside a tick the fired frame has left the queue while its id
   * is still pending, so only `Sound` holds there.
   */
  ghost predicate Steady(s: Loop)
  {
    Sound(s) && s.scheduled == (if s.pending.Some? then {s.pending.value} else {})
  }

  /** A freshly constructed game: idle, no event target, nothing done yet. */
  function Init(): (s: Loop)
    ensures Steady(s) && !Running(s)
  {
    Loop(None, 0, {}, false, [])
  }

  /** `post_construct`: from now on events are dispatched on the attached target. */
  function AfterPostConstruct(s: Loop): (r: Loop)
    ensures Sound(s) ==> Sound(r)
    ensures Steady(s) ==> Steady(r)
  {
    s.(attached := true)
  }

  /** The dispatch of an event, which happens only when a target is attached. */
  function Notify(s: Loop, name: string): seq<Effect>
  {
    if s.attached then [Dispatched(name)] else []
  }

  /** `request_animation_frame`: queues a frame under the next fresh id. */
  function Schedule(s: Loop): Loop
  {
    s.(nextId := s.nextId + 1, scheduled := s.scheduled + {s.nextId}, trace := s.trace + [Requested(s.nextId)])
  }

  /** `Game::run`. */
  function AfterRun(s: Loop, now: real): Loop
  {
    if s.pending.Some? then s
    else
      var s1 := s.(trace := s.trace + [SetupCalled(now)]);
      var s2 := Schedule(s1).(pending := Some(s1.nextId));
      s2.(trace := s2.trace + Notify(s2, RunningEvent))
  }

  /** `Game::stop`. */
  function AfterStop(s: Loop): Loop
  {
    match s.pending
    case None => s
    case Some(id) =>
      var s1 := s.(pending := None, scheduled := s.scheduled - {id}, trace := s.trace + [Cancelled(id)]);
      s1.(trace := s1.trace + Notify(s1, RunningEvent))
  }

  /** `Game::reset`. */
  function AfterReset(s: Loop, now: real): Loop
  {
    AfterRun(AfterStop(s), now)
  }

  /**
   * What a listener of the "frame" event does with the game while the event is being
   * dispatched: nothing, or a re-entrant call to `run`, `stop` or `reset`.
   */
  datatype Listener = Ignores | CallsRun(at: real) | CallsStop | CallsReset(at: real)

  /** The listener's call, which happens only when a target is attached. */
  function React(s: Loop, listener: Listener): Loop
  {
    if !s.attached then s
    else match listener
      case Ignores => s
      case CallsRun(at) => AfterRun(s, at)
      case CallsStop => AfterStop(s)
      case CallsReset(at) => AfterReset(s, at)
  }

  /**
   * The tick closure as written, fired by the host for the queued frame `id` (which
   * the host thereby dequeues); `running` is what `GameLogic::is_running` reports.
   * It requests the next frame whatever the "frame" listener did.
   */
  function AfterTickAsWritten(s: Loop, id: int, now: real, running: bool, listener: Listener): Loop
    requires id in s.scheduled
  {
    var s1 := s.(scheduled := s.scheduled - {id});
    var s2 := React(s1.(trace := s1.trace + Notify(s1, FrameEvent)), listener);
    var s3 := s2.(trace := s2.trace + [Updated(now), Drew]);
    if running then Schedule(s3).(pending := Some(s3.nextId))
    else s3.(pending := None)
  }

  /**
   * The tick closure, corrected: it requests the next frame (or clears the slot) only
   * if the fired frame is still the pending request, that is, unless the "frame"
   * listener stopped or restarted the loop.
   */
  function AfterTick(s: Loop, id: int, now: real, running: bool, listener: Listener): Loop
    requires id in s.scheduled
  {
    var s1 := s.(scheduled := s.scheduled - {id});
    var s2 := React(s1.(trace := s1.trace + Notify(s1, FrameEvent)), listener);
    var s3 := s2.(trace := s2.trace + [Updated(now), Drew]);
    if s3.pending != Some(id) then s3
    else if running then Schedule(s3).(pending := Some(s3.nextId))
    else s3.(pending := None)
  }

  // ---------------------------------------------------------------- run

  /** `run` while a frame is pending changes nothing: no setup, no request, no event. */
  lemma RunWhenRunning(s: Loop, now: real)
    requires Running(s)
    ensures AfterRun(s, now) == s
  {
  }

  /**
   * `run` from idle calls `setup` once, requests exactly one frame whose fresh id
   * becomes the pending request, and dispatches "running" iff a target is attached.
   */
  lemma RunFromIdle(s: Loop, now: real)
    requires Sound(s) && !Running(s)
    ensures var r := AfterRun(s, now);
      && Steady(r) && Running(r)
      && (forall i :: 0 <= i < |s.trace| && s.trace[i].Requested? ==> s.trace[i].id != r.pending.value)
      && r.trace == s.trace + [SetupCalled(now), Requested(r.pending.value)] + Notify(s, RunningEvent)
      && Setups(r.trace) == Setups(s.trace) + 1
      && Count(r.trace, Dispatched(RunningEvent)) == Count(s.trace, Dispatched(RunningEvent)) + (if s.attached then 1 else 0)
  {
    var r := AfterRun(s, now);
    var fixed := [SetupCalled(now), Requested(s.nextId)];
    assert r.trace == s.trace + (fixed + Notify(s, RunningEvent));
    SetupsAppend(s.trace, fixed + Notify(s, RunningEvent));
    SetupsAppend(fixed, Notify(s, RunningEvent));
    CountAppend(s.trace, fixed + Notify(s, RunningEvent), Dispatched(RunningEvent));
    CountAppend(fixed, Notify(s, RunningEvent), Dispatched(RunningEvent));
    CountAppend([SetupCalled(now)], [Requested(s.nextId)], Dispatched(RunningEvent));
    assert fixed == [SetupCalled(now)] + [Requested(s.nextId)];
    SetupsOfPair(SetupCalled(now), Requested(s.nextId));
    SetupsOfNotify(s, RunningEvent);
    CountOfOne(SetupCalled(now), Dispatched(RunningEvent));
    CountOfOne(Requested(s.nextId), Dispatched(RunningEvent));
    CountOfNotify(s, RunningEvent);
    SoundAfterRequest(s.(trace := s.trace + [SetupCalled(now)]), Notify(s, RunningEvent));
  }

  /** Appending a fresh request (and events) keeps every requested id below the counter. */
  lemma SoundAfterRequest(s: Loop, tail: seq<Effect>)
    requires forall i :: 0 <= i < |s.trace| && s.trace[i].Requested? ==> s.trace[i].id < s.nextId
    requires forall i :: 0 <= i < |tail| ==> !tail[i].Requested?
    ensures var t := s.trace + [Requested(s.nextId)] + tail;
      forall i :: 0 <= i < |t| && t[i].Requested? ==> t[i].id < s.nextId + 1
  {
  }

  /** Calling `run` twice is calling it once. */
  lemma RunIdempotent(s: Loop, now: real, later: real)
    ensures AfterRun(AfterRun(s, now), later) == AfterRun(s, now)
  {
  }

  // ---------------------------------------------------------------- stop

  /** `stop` when idle does nothing: no cancel and no event. */
  lemma StopWhenIdle(s: Loop)
    requires !Running(s)
    ensures AfterStop(s) == s
  {
  }

  /**
   * `stop` while running cancels exactly the pending id, leaves nothing pending or
   * queued, and dispatches "running" iff a target is attached.
   */
  lemma StopWhenRunning(s: Loop)
    requires Sound(s) && Running(s)
    ensures var r := AfterStop(s);
      && Steady(r) && !Running(r)
      && r.trace == s.trace + [Cancelled(s.pending.value)] + Notify(s, RunningEvent)
      && Setups(r.trace) == Setups(s.trace)
  {
    var r := AfterStop(s);
    var added := [Cancelled(s.pending.value)] + Notify(s, RunningEvent);
    assert r.trace == s.trace + added;
    SetupsAppend(s.trace, added);
    SetupsAppend([Cancelled(s.pending.value)], Notify(s, RunningEvent));
    SetupsOfOne(Cancelled(s.pending.value));
    SetupsOfNotify(s, RunningEvent);
  }

  /** Calling `stop` twice is calling it once. */
  lemma StopIdempotent(s: Loop)
    ensures AfterStop(AfterStop(s)) == AfterStop(s)
  {
  }

  /**
   * "running" is dispatched by `run` and by `stop` exactly when the call changes the
   * lifecycle state and a target is attached.
   */
  lemma RunningEventOnTransition(s: Loop, now: real)
    requires Sound(s)
    ensures var r := AfterRun(s, now);
      Count(r.trace, Dispatched(RunningEvent)) == Count(s.trace, Dispatched(RunningEvent))
        + (if s.attached && Running(r) != Running(s) then 1 else 0)
    ensures var r := AfterStop(s);
      Count(r.trace, Dispatched(RunningEvent)) == Count(s.trace, Dispatched(RunningEvent))
        + (if s.attached && Running(r) != Running(s) then 1 else 0)
  {
    if !Running(s) {
      RunFromIdle(s, now);
    } else {
      var added := [Cancelled(s.pending.value)] + Notify(s, RunningEvent);
      assert AfterStop(s).trace == s.trace + added;
      CountAppend(s.trace, added, Dispatched(RunningEvent));
      CountAppend([Cancelled(s.pending.value)], Notify(s, RunningEvent), Dispatched(RunningEvent));
      CountOfOne(Cancelled(s.pending.value), Dispatched(RunningEvent));
      CountOfNotify(s, RunningEvent);
    }
  }

  // ---------------------------------------------------------------- reset

  /**
   * `reset` ends with exactly one frame pending and queued, a fresh one, and exactly
   * one more `setup` call, whatever the state before.
   */
  lemma ResetOutcome(s: Loop, now: real)
    requires Sound(s)
    ensures var r := AfterReset(s, now);
      && Steady(r) && Running(r)
      && (s.pending.Some? ==> r.pending.value != s.pending.value)
      && Setups(r.trace) == Setups(s.trace) + 1
  {
    if Running(s) {
      StopWhenRunning(s);
    }
    RunFromIdle(AfterStop(s), now);
  }

  // ---------------------------------------------------------------- tick

  /**
   * A tick whose "frame" listener does not call back dispatches "frame" (if a target
   * is attached) before `update` and `draw`; then, if the logic reports running, the
   * pending id is replaced by a fresh request, otherwise it is cleared. Only the fired
   * frame leaves the host's queue.
   */
  lemma TickOutcome(s: Loop, id: int, now: real, running: bool)
    requires Steady(s) && id in s.scheduled
    ensures var r := AfterTick(s, id, now, running, Ignores);
      && Steady(r)
      && s.pending == Some(id)
      && r.trace == s.trace + Notify(s, FrameEvent) + [Updated(now), Drew]
                    + (if running then [Requested(s.nextId)] else [])
      && (running ==> r.pending == Some(s.nextId) && r.scheduled == {s.nextId})
      && (!running ==> r.pending == None && r.scheduled == {})
  {
    if running {
      SoundAfterRequest(s.(trace := s.trace + Notify(s, FrameEvent) + [Updated(now), Drew]), []);
    }
  }

  /** A tick never calls `setup`: only `run` does. */
  lemma TickCallsNoSetup(s: Loop, id: int, now: real, running: bool)
    requires Steady(s) && id in s.scheduled
    ensures Setups(AfterTick(s, id, now, running, Ignores).trace) == Setups(s.trace)
  {
    TickOutcome(s, id, now, running);
    var rest := [Updated(now), Drew] + (if running then [Requested(s.nextId)] else []);
    assert AfterTick(s, id, now, running, Ignores).trace == s.trace + (Notify(s, FrameEvent) + rest);
    SetupsAppend(s.trace, Notify(s, FrameEvent) + rest);
    SetupsAppend(Notify(s, FrameEvent), rest);
    SetupsAppend([Updated(now), Drew], if running then [Requested(s.nextId)] else []);
    SetupsOfPair(Updated(now), Drew);
    SetupsOfOne(Requested(s.nextId));
    SetupsOfNotify(s, FrameEvent);
  }

  /** The state inside a tick, once the fired frame has left the queue, is sound. */
  lemma SoundInFrame(s: Loop, id: int)
    requires Steady(s) && id in s.scheduled
    ensures var s1 := s.(scheduled := s.scheduled - {id});
      Sound(s1.(trace := s1.trace + Notify(s1, FrameEvent)))
  {
  }

  /**
   * Whatever the "frame" listener does, the corrected tick ends with exactly the
   * pending frame queued: never two frame chains at once.
   */
  lemma TickKeepsSteady(s: Loop, id: int, now: real, running: bool, listener: Listener)
    requires Steady(s) && id in s.scheduled
    ensures Steady(AfterTick(s, id, now, running, listener))
  {
    var s1 := s.(scheduled := s.scheduled - {id});
    var s2 := s1.(trace := s1.trace + Notify(s1, FrameEvent));
    SoundInFrame(s, id);
    ReactInFrame(s2, id, listener);
    var s3 := React(s2, listener);
    var s4 := s3.(trace := s3.trace + [Updated(now), Drew]);
    if s4.pending == Some(id) && running {
      SoundAfterRequest(s4, []);
    }
  }

  /**
   * Inside a tick, after the listener has run: either it left the fired frame pending
   * (and nothing queued), or it stopped or restarted the loop and the state is steady.
   */
  lemma ReactInFrame(s: Loop, id: int, listener: Listener)
    requires Sound(s) && s.pending == Some(id) && s.scheduled == {}
    ensures var r := React(s, listener);
      && Sound(r)
      && (r.pending == Some(id) ==> r.scheduled == {})
      && (r.pending != Some(id) ==> Steady(r))
  {
    if s.attached && listener.CallsStop? {
      StopWhenRunning(s);
    } else if s.attached && listener.CallsReset? {
      ResetOutcome(s, listener.at);
    }
  }

  /** A "frame" listener that calls `stop` ends the loop: nothing pending, nothing queued. */
  lemma ListenerStopEndsLoop(s: Loop, id: int, now: real, running: bool)
    requires Steady(s) && id in s.scheduled && s.attached
    ensures var r := AfterTick(s, id, now, running, CallsStop);
      !Running(r) && r.scheduled == {}
  {
    SoundInFrame(s, id);
    var s1 := s.(scheduled := s.scheduled - {id});
    StopWhenRunning(s1.(trace := s1.trace + Notify(s1, FrameEvent)));
  }

  /**
   * A "frame" listener that calls `reset` leaves the frame `reset` requested as the only
   * one pending and queued.
   */
  lemma ListenerResetRestarts(s: Loop, id: int, now: real, running: bool, at: real)
    requires Steady(s) && id in s.scheduled && s.attached
    ensures var r := AfterTick(s, id, now, running, CallsReset(at));
      r.pending == Some(s.nextId) && r.scheduled == {s.nextId}
  {
    SoundInFrame(s, id);
    var s1 := s.(scheduled := s.scheduled - {id});
    var s2 := s1.(trace := s1.trace + Notify(s1, FrameEvent));
    StopWhenRunning(s2);
    RunFromIdle(AfterStop(s2), at);
  }

  /**
   * The correction changes nothing unless the "frame" listener stops or resets the
   * loop: then the corrected and the written tick agree.
   */
  lemma TickAgreesWithWritten(s: Loop, id: int, now: real, running: bool, listener: Listener)
    requires Steady(s) && id in s.scheduled
    requires !s.attached || listener.Ignores? || listener.CallsRun?
    ensures AfterTick(s, id, now, running, listener) == AfterTickAsWritten(s, id, now, running, listener)
  {
  }

  /** A game that has been attached and started at time 0: frame 0 pending and queued. */
  function Started(): (s: Loop)
    ensures Steady(s) && s.pending == Some(0) && s.scheduled == {0} && s.nextId == 1 && s.attached
  {
    AfterRun(AfterPostConstruct(Init()), 0.0)
  }

  /**
   * As written, a "frame" listener that calls `stop` does not stop the loop: the tick
   * goes on to request frame 1 after `stop` cancelled frame 0.
   */
  lemma WrittenTickIgnoresStop()
    ensures var r := AfterTickAsWritten(Started(), 0, 1.0, true, CallsStop);
      Running(r) && r.scheduled == {1}
  {
  }

  /**
   * As written, a "frame" listener that calls `reset` leaves two frames queued (1 from
   * `reset`, 2 from the tick), and after a later `stop` frame 1 still fires and
   * starts the loop again.
   */
  lemma WrittenTickDoubleSchedules()
    ensures var r := AfterTickAsWritten(Started(), 0, 1.0, true, CallsReset(1.0));
      && r.scheduled == {1, 2} && r.pending == Some(2) && !Sound(r)
      && AfterStop(r).scheduled == {1} && !Running(AfterStop(r))
      && Running(AfterTickAsWritten(AfterStop(r), 1, 2.0, true, Ignores))
  {
  }

  /**
   * A frame that `stop` cancelled is no longer queued, not even after a `reset`, and
   * its id stays below the counter, so no later request is handed it again.
   */
  lemma CancelledFrameNotQueued(s: Loop, now: real)
    requires Sound(s) && Running(s)
    ensures s.pending.value !in AfterStop(s).scheduled
    ensures s.pending.value !in AfterReset(s, now).scheduled
    ensures s.pending.value < AfterStop(s).nextId
    ensures s.pending.value < AfterReset(s, now).nextId
  {
    ResetOutcome(s, now);
  }

  // ---------------------------------------------------------------- the object

  /**
   * `Game`: the shared `request_id` slot, the event target set by `post_construct`,
   * the logic and the renderer, with the host scheduler's counter and queue and the
   * trace of effects as fields.
   */
  class Game {
    var pending: Option<int>
    var attached: bool
    var nextId: int
    var scheduled: set<int>
    var trace: seq<Effect>
    const logic: GameLogic
    const renderer: Renderer

    ghost function State(): Loop
      reads this
    {
      Loop(pending, nextId, scheduled, attached, trace)
    }

    ghost predicate Valid()
      reads this, logic
    {
      Sound(State()) && logic.Valid()
    }

    /** Between two host callbacks exactly the pending frame is queued. */
    ghost predicate Settled()
      reads this
    {
      Steady(State())
    }

    /** `Game::new` on a 480 × 360 canvas: idle, no event target, default logic. */
    constructor ()
      ensures Valid() && Settled() && State() == Init()
      ensures fresh(logic) && fresh(renderer)
      ensures logic.lastFrameTime == 0.0 && logic.direction == 0
      ensures renderer.width == 480.0 && renderer.height == 360.0
      ensures renderer.Centred() && renderer.projection == DefaultProjection
      ensures renderer.rotationX == 0.0 && renderer.rotationY == 0.0 && renderer.rotationZ == 0.0
    {
      pending := None;
      attached := false;
      nextId := 0;
      scheduled := {};
      trace := [];
      logic := new GameLogic();
      renderer := new Renderer(480, 360);
    }

    /** `post_construct`: attaches the event target. */
    method PostConstruct()
      requires Valid()
      modifies this`attached
      ensures Valid() && State() == AfterPostConstruct(old(State()))
    {
      attached := true;
    }

    /** Dispatches an event if a target is attached. */
    method Dispatch(name: string)
      modifies this`trace
      ensures trace == old(trace) + Notify(old(State()), name)
    {
      if attached {
        trace := trace + [Dispatched(name)];
      }
    }

    /** The host's `request_animation_frame`: a fresh id, queued. */
    method RequestAnimationFrame() returns (id: int)
      modifies this`nextId, this`scheduled, this`trace
      ensures id == old(nextId)
      ensures Sound(old(State())) ==>
        forall i :: 0 <= i < |old(trace)| && old(trace)[i].Requested? ==> old(trace)[i].id != id
      ensures State() == Schedule(old(State()))
    {
      id := nextId;
      nextId := nextId + 1;
      scheduled := scheduled + {id};
      trace := trace + [Requested(id)];
    }

    /** The host's `cancel_animation_frame`: the id leaves the queue. */
    method CancelAnimationFrame(id: int)
      modifies this`scheduled, this`trace
      ensures scheduled == old(scheduled) - {id}
      ensures trace == old(trace) + [Cancelled(id)]
    {
      scheduled := scheduled - {id};
      trace := trace + [Cancelled(id)];
    }

    /** `Game::run`, at time `now`. */
    method Run(now: real)
      requires Valid()
      modifies this, logic
      ensures Valid() && State() == AfterRun(old(State()), now)
      ensures old(Running(State())) || Settled()
      ensures logic.lastFrameTime == (if old(Running(State())) then old(logic.lastFrameTime) else now)
      ensures logic.direction == old(logic.direction)
    {
      if pending.Some? {
        return;
      }
      logic.Setup(now);
      trace := trace + [SetupCalled(now)];
      var id := RequestAnimationFrame();
      pending := Some(id);
      Dispatch(RunningEvent);
      RunFromIdle(old(State()), now);
    }

    /** `Game::stop`. */
    method Stop()
      requires Valid()
      modifies this
      ensures Valid() && Settled() && State() == AfterStop(old(State()))
    {
      if pending.Some? {
        var id := pending.value;
        pending := None;
        CancelAnimationFrame(id);
        Dispatch(RunningEvent);
        StopWhenRunning(old(State()));
      }
    }

    /** `Game::reset`: `stop`, then `run`. */
    method Reset(now: real)
      requires Valid()
      modifies this, logic
      ensures Valid() && Settled() && State() == AfterReset(old(State()), now)
      ensures logic.lastFrameTime == now && logic.direction == old(logic.direction)
    {
      Stop();
      Run(now);
    }

    /**
     * The tick closure (corrected as `AfterTick` describes), fired by the host for the
     * queued frame `id` at time `now`; `listener` is what the "frame" listener does.
     */
    method Tick(id: int, now: real, listener: Listener)
      requires Valid() && Settled() && id in scheduled
      modifies this, logic
      ensures Valid() && Settled() && State() == AfterTick(old(State()), id, now, true, listener)
      ensures logic.lastFrameTime == now && logic.direction == old(logic.direction)
    {
      scheduled := scheduled - {id};
      Dispatch(FrameEvent);
      SoundInFrame(old(State()), id);
      ghost var inFrame := State();
      if attached {
        match listener {
          case Ignores =>
          case CallsRun(at) => Run(at);
          case CallsStop => Stop();
          case CallsReset(at) => Reset(at);
        }
      }
      assert State() == React(inFrame, listener);
      logic.Update(now);
      trace := trace + [Updated(now), Drew];
      if pending == Some(id) {
        Reschedule(logic.IsRunning());
      }
      TickKeepsSteady(old(State()), id, now, true, listener);
    }

    /** The end of the tick: request the next frame while running, else clear the slot. */
    method Reschedule(running: bool)
      modifies this`pending, this`nextId, this`scheduled, this`trace
      ensures running ==> State() == Schedule(old(State())).(pending := Some(old(nextId)))
      ensures !running ==> State() == old(State()).(pending := None)
    {
      if running {
        var next := RequestAnimationFrame();
        pending := Some(next);
      } else {
        pending := None;
      }
    }
  }
}
