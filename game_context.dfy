/**
 * GameContext: the engine's single context. It owns the main loop, its own pending-event
 * list (drained by PollEvents: snapshot, clear, dispatch in order), the `done` flag that ends
 * the loop, and the current scene, which ChangeScene replaces (old scene's Exit, new scene's
 * Enter, then the switch).
 *
 * Scenes are dispatched by their runtime type: entering an ExitScene runs its Enter, which
 * posts EXIT_GAME on the bus; every scene call is also kept, in order, in `calls`.
 */
module Engine {

  import opened Events
  import opened EngineTypes
  import opened ExitScenes

  /** A call the context makes on a scene. */
  datatype SceneCall =
    | EnterCall(scene: object?)
    | ExitCall(scene: object?)
    | UpdateCall(scene: object?)
    | RenderCall(scene: object?, layer: RenderLayer)

  /** The part of the context that dispatching changes, and the events posted meanwhile. */
  datatype ContextState = ContextState(done: bool, current: object?, calls: seq<SceneCall>, posted: seq<Event>)

  /** ChangeScene: nothing for null; otherwise Exit the old scene, Enter the new one, switch. */
  function ChangeSceneEffect(s: ContextState, next: object?): (r: ContextState)
    ensures next == null ==> r == s
    ensures next != null ==> r.current == next && r.calls == s.calls + [ExitCall(s.current), EnterCall(next)]
    ensures r.done == s.done
    ensures r.posted == s.posted + (if next != null && next is ExitScene then [ExitGameEvent()] else [])
  {
    if next == null then s
    else
      ContextState(s.done, next, s.calls + [ExitCall(s.current), EnterCall(next)],
                   s.posted + (if next is ExitScene then [ExitGameEvent()] else []))
  }

  /** The effect of one event: CHANGE_SCENE switches scenes, EXIT_GAME ends the game. */
  function ContextEvent(s: ContextState, e: Event): (r: ContextState)
    ensures r.done == (s.done || IsStateEvent(e, EXIT_GAME))
    ensures !IsStateEvent(e, CHANGE_SCENE) && !IsStateEvent(e, EXIT_GAME) ==> r == s
    ensures s.posted <= r.posted
    ensures s.current != null ==> r.current != null
  {
    if e.SceneStateEvent? then
      match e.eventType
      case CHANGE_SCENE => ChangeSceneEffect(s, e.newScene)
      case EXIT_GAME => s.(done := true)
      case _ => s
    else s
  }

  /** What an event does does not depend on what was posted before it. */
  lemma ContextEventFrame(s: ContextState, e: Event)
    ensures var r0 := ContextEvent(s.(posted := []), e);
      ContextEvent(s, e) == r0.(posted := s.posted + r0.posted)
  {
    var r0 := ContextEvent(s.(posted := []), e);
    assert [] + r0.posted == r0.posted;
  }

  /** Dispatching `evs` in arrival order. */
  function ContextEvents(s: ContextState, evs: seq<Event>): ContextState {
    if evs == [] then s
    else ContextEvent(ContextEvents(s, evs[..|evs| - 1]), evs[|evs| - 1])
  }

  /** After a poll the game is done exactly when it was already done or an EXIT_GAME was handled. */
  lemma {:induction false} DoneIff(s: ContextState, evs: seq<Event>)
    ensures ContextEvents(s, evs).done <==> s.done || CountType(evs, EXIT_GAME) > 0
  {
    if evs != [] {
      DoneIff(s, evs[..|evs| - 1]);
    }
  }

  /** Nothing ever sets `done` back to false. */
  lemma DoneStaysSet(s: ContextState, evs: seq<Event>)
    requires s.done
    ensures ContextEvents(s, evs).done
  {
    DoneIff(s, evs);
  }

  /** A poll never leaves the context without a scene. */
  lemma {:induction false} CurrentStaysSet(s: ContextState, evs: seq<Event>)
    requires s.current != null
    ensures ContextEvents(s, evs).current != null
  {
    if evs != [] {
      CurrentStaysSet(s, evs[..|evs| - 1]);
    }
  }

  /** Events other than CHANGE_SCENE and EXIT_GAME leave the context unchanged. */
  lemma {:induction false} IgnoredEventsLeaveContext(s: ContextState, evs: seq<Event>)
    requires forall k :: 0 <= k < |evs| ==> !IsStateEvent(evs[k], CHANGE_SCENE) && !IsStateEvent(evs[k], EXIT_GAME)
    ensures ContextEvents(s, evs) == s
  {
    if evs != [] {
      IgnoredEventsLeaveContext(s, evs[..|evs| - 1]);
    }
  }

  /** A CHANGE_SCENE to an ExitScene anywhere in a poll leaves an EXIT_GAME among the posted events. */
  lemma {:induction false} ExitScenePostsExit(s: ContextState, evs: seq<Event>, k: nat)
    requires k < |evs| && IsStateEvent(evs[k], CHANGE_SCENE) && evs[k].newScene is ExitScene
    ensures ExitGameEvent() in ContextEvents(s, evs).posted
  {
    var init := evs[..|evs| - 1];
    if k < |init| {
      ExitScenePostsExit(s, init, k);
    } else {
      var m := ContextEvents(s, init);
      assert ContextEvents(s, evs).posted == m.posted + [ExitGameEvent()];
    }
  }

  /**
   * The EXIT_GAME that entering an ExitScene posts is not handled by the poll that entered
   * it; it is what ends the game on the next poll.
   */
  lemma ExitSceneEndsGameNextPoll(s: ContextState, evs: seq<Event>, k: nat, next: ContextState)
    requires !s.done && CountType(evs, EXIT_GAME) == 0
    requires k < |evs| && IsStateEvent(evs[k], CHANGE_SCENE) && evs[k].newScene is ExitScene
    ensures !ContextEvents(s, evs).done
    ensures ContextEvents(next, ContextEvents(s, evs).posted).done
  {
    DoneIff(s, evs);
    var posted := ContextEvents(s, evs).posted;
    ExitScenePostsExit(s, evs, k);
    var j :| 0 <= j < |posted| && posted[j] == ExitGameEvent();
    CountTypePositive(posted, EXIT_GAME);
    DoneIff(next, posted);
  }

  /** How many of the calls in `cs` are scene Updates. */
  function UpdateCount(cs: seq<SceneCall>): nat {
    if cs == [] then 0
    else UpdateCount(cs[..|cs| - 1]) + (if cs[|cs| - 1].UpdateCall? then 1 else 0)
  }

  /** How many of the calls in `cs` are scene Renders. */
  function RenderCount(cs: seq<SceneCall>): nat {
    if cs == [] then 0
    else RenderCount(cs[..|cs| - 1]) + (if cs[|cs| - 1].RenderCall? then 1 else 0)
  }

  lemma {:induction false} CountsAppend(a: seq<SceneCall>, b: seq<SceneCall>)
    ensures UpdateCount(a + b) == UpdateCount(a) + UpdateCount(b)
    ensures RenderCount(a + b) == RenderCount(a) + RenderCount(b)
    decreases |b|
  {
    if b == [] {
      assert a + b == a;
    } else {
      CountsAppend(a, b[..|b| - 1]);
      assert (a + b)[..|a + b| - 1] == a + b[..|b| - 1];
    }
  }

  /** A poll only appends to the trace, and only Exit and Enter calls: no Update, no Render. */
  lemma {:induction false} PollAddsNoUpdateOrRender(s: ContextState, evs: seq<Event>)
    ensures var r := ContextEvents(s, evs);
      && s.calls <= r.calls
      && UpdateCount(r.calls) == UpdateCount(s.calls)
      && RenderCount(r.calls) == RenderCount(s.calls)
  {
    if evs != [] {
      var m := ContextEvents(s, evs[..|evs| - 1]);
      PollAddsNoUpdateOrRender(s, evs[..|evs| - 1]);
      var e := evs[|evs| - 1];
      if IsStateEvent(e, CHANGE_SCENE) && e.newScene != null {
        var pair := [ExitCall(m.current), EnterCall(e.newScene)];
        CountsAppend(m.calls, pair);
        assert pair[..1] == [ExitCall(m.current)] && pair[..1][..0] == [];
        assert UpdateCount(pair[..1]) == 0 && RenderCount(pair[..1]) == 0;
      }
    }
  }

  /** How many whole steps of msPerUpdate fit into the lag: the measure the catch-up loop uses up. */
  function Steps(lag: real, msPerUpdate: real): int
    requires msPerUpdate > 0.0
  {
    (lag / msPerUpdate).Floor
  }

  /** Paying one step off a lag that covers it leaves exactly one whole step less, and no fewer than none. */
  lemma StepsDecrease(lag: real, msPerUpdate: real)
    requires lag >= msPerUpdate > 0.0
    ensures 0 <= Steps(lag - msPerUpdate, msPerUpdate) == Steps(lag, msPerUpdate) - 1
  {
    var q, q' := lag / msPerUpdate, (lag - msPerUpdate) / msPerUpdate;
    assert q * msPerUpdate == lag;
    assert q' * msPerUpdate == lag - msPerUpdate;
    assert (q - 1.0) * msPerUpdate == q * msPerUpdate - msPerUpdate;
    MulCancel(q', q - 1.0, msPerUpdate);
  }

  lemma MulCancel(a: real, b: real, m: real)
    requires m > 0.0 && a * m == b * m
    ensures a == b
  {
    assert (a - b) * m == 0.0;
  }

  /**
   * The updates the catch-up loop runs on a lag of `lag` milliseconds: one for each
   * msPerUpdate it pays off while the lag still covers a whole step.
   */
  function Ticks(lag: real, msPerUpdate: real): nat
    requires lag >= 0.0 && msPerUpdate > 0.0
    decreases Steps(lag, msPerUpdate)
  {
    if lag < msPerUpdate then 0
    else
      StepsDecrease(lag, msPerUpdate);
      1 + Ticks(lag - msPerUpdate, msPerUpdate)
  }

  /** The lag the catch-up loop leaves behind: always less than one step. */
  function Leftover(lag: real, msPerUpdate: real): (r: real)
    requires lag >= 0.0 && msPerUpdate > 0.0
    ensures 0.0 <= r < msPerUpdate
    ensures lag < msPerUpdate ==> r == lag
    decreases Steps(lag, msPerUpdate)
  {
    if lag < msPerUpdate then lag
    else
      StepsDecrease(lag, msPerUpdate);
      Leftover(lag - msPerUpdate, msPerUpdate)
  }

  /** The catch-up loop has run `updates` updates from `lag0` and holds `lag`: what is left to run, and to leave, is unchanged. */
  ghost predicate CatchUpAt(lag0: real, msPerUpdate: real, lag: real, updates: nat) {
    && lag0 >= 0.0 && lag >= 0.0 && msPerUpdate > 0.0
    && updates + Ticks(lag, msPerUpdate) == Ticks(lag0, msPerUpdate)
    && Leftover(lag, msPerUpdate) == Leftover(lag0, msPerUpdate)
  }

  lemma CatchUpStep(lag0: real, msPerUpdate: real, lag: real, updates: nat)
    requires CatchUpAt(lag0, msPerUpdate, lag, updates) && lag >= msPerUpdate
    ensures CatchUpAt(lag0, msPerUpdate, lag - msPerUpdate, updates + 1)
  {
  }

  /** When the catch-up loop stops, it has run floor(lag0 / msPerUpdate) updates and left the rest. */
  lemma CatchUpEnd(lag0: real, msPerUpdate: real, lag: real, updates: nat)
    requires CatchUpAt(lag0, msPerUpdate, lag, updates) && lag < msPerUpdate
    ensures updates == Ticks(lag0, msPerUpdate) == Steps(lag0, msPerUpdate) && lag == Leftover(lag0, msPerUpdate)
    ensures Scaled(updates, msPerUpdate) + lag == lag0 && 0.0 <= lag < msPerUpdate
  {
    TicksPayLag(lag0, msPerUpdate);
    TicksAreWholeSteps(lag0, msPerUpdate);
  }

  /** A lag shorter than one step holds no whole step. */
  lemma NoWholeStep(lag: real, msPerUpdate: real)
    requires 0.0 <= lag < msPerUpdate
    ensures Steps(lag, msPerUpdate) == 0
  {
    var q := lag / msPerUpdate;
    assert q * msPerUpdate == lag;
    assert (1.0 - q) * msPerUpdate == msPerUpdate - lag;
  }

  /** The catch-up loop runs one update per whole step in the lag: floor(lag / msPerUpdate) of them. */
  lemma {:induction false} TicksAreWholeSteps(lag: real, msPerUpdate: real)
    requires lag >= 0.0 && msPerUpdate > 0.0
    ensures Ticks(lag, msPerUpdate) == Steps(lag, msPerUpdate)
    decreases Steps(lag, msPerUpdate)
  {
    if lag < msPerUpdate {
      NoWholeStep(lag, msPerUpdate);
    } else {
      StepsDecrease(lag, msPerUpdate);
      TicksAreWholeSteps(lag - msPerUpdate, msPerUpdate);
    }
  }

  /** `n` steps of `m` milliseconds, counted one step at a time. */
  function Scaled(n: nat, m: real): real {
    if n == 0 then 0.0 else Scaled(n - 1, m) + m
  }

  /** Counting the steps one at a time gives the product. */
  lemma {:induction false} ScaledIsProduct(n: nat, m: real)
    ensures Scaled(n, m) == n as real * m
  {
    if n > 0 {
      ScaledIsProduct(n - 1, m);
      assert (n - 1) as real * m + m == n as real * m;
    }
  }

  /** Steps counted in two runs add up. */
  lemma {:induction false} ScaledAdd(a: nat, b: nat, m: real)
    ensures Scaled(a + b, m) == Scaled(a, m) + Scaled(b, m)
  {
    if b > 0 {
      ScaledAdd(a, b - 1, m);
      assert a + b - 1 == a + (b - 1);
    }
  }

  /** The catch-up loop loses no time: the steps it pays plus what it leaves is the lag it was given. */
  lemma {:induction false} TicksPayLag(lag: real, msPerUpdate: real)
    requires lag >= 0.0 && msPerUpdate > 0.0
    ensures Scaled(Ticks(lag, msPerUpdate), msPerUpdate) + Leftover(lag, msPerUpdate) == lag
    decreases Steps(lag, msPerUpdate)
  {
    if lag >= msPerUpdate {
      StepsDecrease(lag, msPerUpdate);
      TicksPayLag(lag - msPerUpdate, msPerUpdate);
    }
  }

  /** One frame of the main loop: the milliseconds since the last one, and whether input asked to quit. */
  datatype Frame = Frame(elapsed: real, closeRequested: bool)

  predicate ElapsedNonNegative(frames: seq<Frame>) {
    forall k :: 0 <= k < |frames| ==> frames[k].elapsed >= 0.0
  }

  /** The lag carried over after `frames`, starting from no lag. */
  function LagAfter(frames: seq<Frame>, msPerUpdate: real): (lag: real)
    requires ElapsedNonNegative(frames) && msPerUpdate > 0.0
    ensures 0.0 <= lag < msPerUpdate
  {
    if frames == [] then 0.0
    else Leftover(LagAfter(frames[..|frames| - 1], msPerUpdate) + frames[|frames| - 1].elapsed, msPerUpdate)
  }

  /** The number of fixed updates run over `frames`. */
  function TotalTicks(frames: seq<Frame>, msPerUpdate: real): nat
    requires ElapsedNonNegative(frames) && msPerUpdate > 0.0
  {
    if frames == [] then 0
    else
      TotalTicks(frames[..|frames| - 1], msPerUpdate)
      + Ticks(LagAfter(frames[..|frames| - 1], msPerUpdate) + frames[|frames| - 1].elapsed, msPerUpdate)
  }

  /** After the first `n` frames, the loop carries `lag` and has run `updates` updates. */
  ghost predicate Progress(frames: seq<Frame>, n: nat, msPerUpdate: real, lag: real, updates: nat) {
    && n <= |frames| && msPerUpdate > 0.0
    && ElapsedNonNegative(frames[..n])
    && lag == LagAfter(frames[..n], msPerUpdate)
    && updates == TotalTicks(frames[..n], msPerUpdate)
  }

  /** Running frame `n` advances the lag and the update count by that frame's catch-up. */
  lemma ProgressStep(frames: seq<Frame>, n: nat, msPerUpdate: real, lag: real, updates: nat, ticks: nat, lag': real)
    requires Progress(frames, n, msPerUpdate, lag, updates) && n < |frames| && frames[n].elapsed >= 0.0
    requires ticks == Ticks(lag + frames[n].elapsed, msPerUpdate) && lag' == Leftover(lag + frames[n].elapsed, msPerUpdate)
    ensures Progress(frames, n + 1, msPerUpdate, lag', updates + ticks)
  {
    assert frames[..n + 1][..n] == frames[..n];
  }

  /** No frame in `frames` asked to quit. */
  predicate NoQuitRequested(frames: seq<Frame>) {
    forall k :: 0 <= k < |frames| ==> !frames[k].closeRequested
  }

  function TotalElapsed(frames: seq<Frame>): real {
    if frames == [] then 0.0
    else TotalElapsed(frames[..|frames| - 1]) + frames[|frames| - 1].elapsed
  }

  /**
   * No time is lost over the frames: the msPerUpdate steps paid for the updates run, plus
   * the lag left over, is all the elapsed time.
   */
  lemma {:induction false} LagConservation(frames: seq<Frame>, msPerUpdate: real)
    requires ElapsedNonNegative(frames) && msPerUpdate > 0.0
    ensures Scaled(TotalTicks(frames, msPerUpdate), msPerUpdate) + LagAfter(frames, msPerUpdate) == TotalElapsed(frames)
  {
    if frames != [] {
      var init := frames[..|frames| - 1];
      assert ElapsedNonNegative(init);
      LagConservation(init, msPerUpdate);
      var l := LagAfter(init, msPerUpdate) + frames[|frames| - 1].elapsed;
      TicksPayLag(l, msPerUpdate);
      ScaledAdd(TotalTicks(init, msPerUpdate), Ticks(l, msPerUpdate), msPerUpdate);
    }
  }

  /** The layers RenderAll walks through, in enumeration order. */
  const ALL_LAYERS: seq<RenderLayer> := [BACKGROOUND, GROUND, MAINBOARD, HITBOXES, OVERHEAD, USER_INTERFACE, MENU]

  /** The calls one RenderAll makes on `scene`: one Render per layer, in enumeration order. */
  function RenderPass(scene: object?): seq<SceneCall> {
    seq(|ALL_LAYERS|, k requires 0 <= k < |ALL_LAYERS| => RenderCall(scene, ALL_LAYERS[k]))
  }

  /** A render pass holds one Render call per layer and no Update call. */
  lemma {:induction false} RenderPassCounts(scene: object?, n: nat)
    requires n <= |ALL_LAYERS|
    ensures RenderCount(RenderPass(scene)[..n]) == n && UpdateCount(RenderPass(scene)[..n]) == 0
  {
    if n > 0 {
      RenderPassCounts(scene, n - 1);
      assert RenderPass(scene)[..n][..n - 1] == RenderPass(scene)[..n - 1];
    }
  }

  /**
   * The trace `cs` extends `start` with exactly `updates` scene Updates and `renders` render
   * passes, the last of which (if any) rendered `scene`; anything else added is Exit/Enter.
   * A render pass makes 7 Render calls, one per layer of ALL_LAYERS.
   */
  ghost predicate TraceOfRun(start: seq<SceneCall>, cs: seq<SceneCall>, updates: nat, renders: nat, scene: object?) {
    && start <= cs
    && UpdateCount(cs) == UpdateCount(start) + updates
    && RenderCount(cs) == RenderCount(start) + 7 * renders
    && (renders > 0 ==> |cs| >= |ALL_LAYERS| && cs[|cs| - |ALL_LAYERS|..] == RenderPass(scene))
  }

  /** Two runs one after the other make one run. */
  lemma TraceOfRunCompose(start: seq<SceneCall>, mid: seq<SceneCall>, cs: seq<SceneCall>,
                          u1: nat, r1: nat, s1: object?, u2: nat, r2: nat, s2: object?)
    requires TraceOfRun(start, mid, u1, r1, s1) && TraceOfRun(mid, cs, u2, r2, s2) && r2 > 0
    ensures TraceOfRun(start, cs, u1 + u2, r1 + r2, s2)
  {
    assert |ALL_LAYERS| == 7;
  }

  /** Every layer is rendered, each once per frame. */
  lemma AllLayersOnce(layer: RenderLayer)
    ensures layer in ALL_LAYERS && |ALL_LAYERS| == 7
    ensures forall i, j :: 0 <= i < j < |ALL_LAYERS| ==> ALL_LAYERS[i] != ALL_LAYERS[j]
  {
  }

  /** What the main loop reads and changes in the context: its flag, scene, trace and pending list. */
  datatype Ctx = Ctx(done: bool, current: object?, calls: seq<SceneCall>, pending: seq<Event>)

  /** Update: poll the pending events, then update the scene current after the poll. */
  function UpdateOnce(c: Ctx): Ctx {
    var p := ContextEvents(ContextState(c.done, c.current, c.calls, []), c.pending);
    Ctx(p.done, p.current, p.calls + [UpdateCall(p.current)], p.posted)
  }

  /** `n` Updates one after the other. */
  function Updates(c: Ctx, n: nat): Ctx {
    if n == 0 then c else UpdateOnce(Updates(c, n - 1))
  }

  /** One frame: take the quit request, catch up with the fixed updates the lag pays for, render once. */
  function FrameStep(c: Ctx, f: Frame, lag: real, msPerUpdate: real): Ctx
    requires lag >= 0.0 && f.elapsed >= 0.0 && msPerUpdate > 0.0
  {
    var quit := if f.closeRequested then c.(done := true) else c;
    var u := Updates(quit, Ticks(lag + f.elapsed, msPerUpdate));
    u.(calls := u.calls + RenderPass(u.current))
  }

  /**
   * From `a` to `b` the trace only grew, by `updates` scene Updates and no Render, a current
   * scene stayed set and a set `done` stayed set.
   */
  ghost predicate Grows(a: Ctx, b: Ctx, updates: nat) {
    && a.calls <= b.calls
    && UpdateCount(b.calls) == UpdateCount(a.calls) + updates
    && RenderCount(b.calls) == RenderCount(a.calls)
    && (a.done ==> b.done)
    && (a.current != null ==> b.current != null)
  }

  lemma GrowsTrans(a: Ctx, b: Ctx, c: Ctx, u1: nat, u2: nat)
    requires Grows(a, b, u1) && Grows(b, c, u2)
    ensures Grows(a, c, u1 + u2)
  {
  }

  /** One Update adds one scene Update to the trace and no Render, and keeps a current scene and a set `done`. */
  lemma UpdateOnceCounts(c: Ctx)
    ensures Grows(c, UpdateOnce(c), 1)
  {
    var s := ContextState(c.done, c.current, c.calls, []);
    var p := ContextEvents(s, c.pending);
    PollAddsNoUpdateOrRender(s, c.pending);
    CountsAppend(p.calls, [UpdateCall(p.current)]);
    assert [UpdateCall(p.current)][..0] == [];
    DoneIff(s, c.pending);
    if c.current != null {
      CurrentStaysSet(s, c.pending);
    }
  }

  /** `n` Updates add `n` scene Updates to the trace and no Render. */
  lemma {:induction false} UpdatesCounts(c: Ctx, n: nat)
    ensures Grows(c, Updates(c, n), n)
  {
    if n > 0 {
      var p := Updates(c, n - 1);
      UpdatesCounts(c, n - 1);
      UpdateOnceCounts(p);
      GrowsTrans(c, p, UpdateOnce(p), n - 1, 1);
    }
  }

  /**
   * One frame adds its catch-up's Updates and one render pass of the scene it ends on to the
   * trace; a frame that asked to quit, or that began done, leaves the game done.
   */
  lemma FrameStepFacts(c: Ctx, f: Frame, lag: real, msPerUpdate: real)
    requires lag >= 0.0 && f.elapsed >= 0.0 && msPerUpdate > 0.0
    ensures var r := FrameStep(c, f, lag, msPerUpdate);
      && TraceOfRun(c.calls, r.calls, Ticks(lag + f.elapsed, msPerUpdate), 1, r.current)
      && (c.done || f.closeRequested ==> r.done)
      && (c.current != null ==> r.current != null)
  {
    var quit := if f.closeRequested then c.(done := true) else c;
    var u := Updates(quit, Ticks(lag + f.elapsed, msPerUpdate));
    UpdatesCounts(quit, Ticks(lag + f.elapsed, msPerUpdate));
    RenderPassCounts(u.current, |ALL_LAYERS|);
    assert RenderPass(u.current)[..|ALL_LAYERS|] == RenderPass(u.current);
    CountsAppend(u.calls, RenderPass(u.current));
  }

  /** The main loop's clock between two passes: the lag carried over and the updates run so far. */
  datatype Pace = Pace(lag: real, updates: nat)

  /** The clock after frame `f`: its elapsed time is added to the lag, and the catch-up pays it off. */
  function Tick(p: Pace, f: Frame, msPerUpdate: real): (r: Pace)
    requires p.lag >= 0.0 && f.elapsed >= 0.0 && msPerUpdate > 0.0
    ensures 0.0 <= r.lag < msPerUpdate && r.updates >= p.updates
  {
    var lag := p.lag + f.elapsed;
    Pace(Leftover(lag, msPerUpdate), p.updates + Ticks(lag, msPerUpdate))
  }

  /** The clock after the first `n` frames, each one catching up on the lag the earlier ones left. */
  function PaceAfter(frames: seq<Frame>, msPerUpdate: real, n: nat): (p: Pace)
    requires n <= |frames| && ElapsedNonNegative(frames) && msPerUpdate > 0.0
    ensures 0.0 <= p.lag < msPerUpdate
  {
    if n == 0 then Pace(0.0, 0)
    else Tick(PaceAfter(frames, msPerUpdate, n - 1), frames[n - 1], msPerUpdate)
  }

  /** The clock after `n` frames holds the lag and update count of the frames run so far. */
  lemma {:induction false} PaceProgress(frames: seq<Frame>, msPerUpdate: real, n: nat)
    requires n <= |frames| && ElapsedNonNegative(frames) && msPerUpdate > 0.0
    ensures var p := PaceAfter(frames, msPerUpdate, n);
      Progress(frames, n, msPerUpdate, p.lag, p.updates)
  {
    if n > 0 {
      PaceProgress(frames, msPerUpdate, n - 1);
      var prev := PaceAfter(frames, msPerUpdate, n - 1);
      var lag := prev.lag + frames[n - 1].elapsed;
      ProgressStep(frames, n - 1, msPerUpdate, prev.lag, prev.updates, Ticks(lag, msPerUpdate), Leftover(lag, msPerUpdate));
    }
  }

  /**
   * The context after the main loop has run the first `n` frames from `c0`, each one with
   * the lag the earlier frames left.
   */
  function StateAfter(c0: Ctx, frames: seq<Frame>, msPerUpdate: real, n: nat): Ctx
    requires n <= |frames| && ElapsedNonNegative(frames) && msPerUpdate > 0.0
  {
    if n == 0 then c0
    else FrameStep(StateAfter(c0, frames, msPerUpdate, n - 1), frames[n - 1],
                   PaceAfter(frames, msPerUpdate, n - 1).lag, msPerUpdate)
  }

  /** One more frame adds its Updates and one render pass to the trace of the run so far. */
  lemma FrameStepTrace(start: seq<SceneCall>, c: Ctx, f: Frame, p: Pace, msPerUpdate: real, n: nat)
    requires p.lag >= 0.0 && f.elapsed >= 0.0 && msPerUpdate > 0.0
    requires TraceOfRun(start, c.calls, p.updates, n, c.current)
    ensures var r := FrameStep(c, f, p.lag, msPerUpdate);
      TraceOfRun(start, r.calls, Tick(p, f, msPerUpdate).updates, n + 1, r.current)
  {
    var r := FrameStep(c, f, p.lag, msPerUpdate);
    var ticks := Ticks(p.lag + f.elapsed, msPerUpdate);
    assert Tick(p, f, msPerUpdate).updates == p.updates + ticks;
    FrameStepFacts(c, f, p.lag, msPerUpdate);
    TraceOfRunCompose(start, c.calls, r.calls, p.updates, n, c.current, ticks, 1, r.current);
  }

  /** The game was not done at the head of any of the first `n` passes of the main loop. */
  ghost predicate NotDoneBefore(c0: Ctx, frames: seq<Frame>, msPerUpdate: real, n: nat)
    requires n <= |frames| && ElapsedNonNegative(frames) && msPerUpdate > 0.0
  {
    n == 0 || (NotDoneBefore(c0, frames, msPerUpdate, n - 1) && !StateAfter(c0, frames, msPerUpdate, n - 1).done)
  }

  /** The recursive form says that no pass before the `n`-th found the game done. */
  lemma {:induction false} NotDoneBeforeAll(c0: Ctx, frames: seq<Frame>, msPerUpdate: real, n: nat)
    requires n <= |frames| && ElapsedNonNegative(frames) && msPerUpdate > 0.0
    requires NotDoneBefore(c0, frames, msPerUpdate, n)
    ensures forall k :: 0 <= k < n ==> !StateAfter(c0, frames, msPerUpdate, k).done
  {
    if n > 0 {
      NotDoneBeforeAll(c0, frames, msPerUpdate, n - 1);
    }
  }

  /**
   * A frame that asks to quit is the last one the loop runs: when the game was not done at
   * the head of the first `n` passes, none of the frames before the last of them asked to quit.
   */
  lemma {:induction false} NoQuitBeforeLast(c0: Ctx, frames: seq<Frame>, msPerUpdate: real, n: nat)
    requires n <= |frames| && ElapsedNonNegative(frames) && msPerUpdate > 0.0
    requires NotDoneBefore(c0, frames, msPerUpdate, n)
    ensures n > 0 ==> NoQuitRequested(frames[..n - 1])
  {
    if n > 1 {
      NoQuitBeforeLast(c0, frames, msPerUpdate, n - 1);
      if frames[n - 2].closeRequested {
        FrameStepFacts(StateAfter(c0, frames, msPerUpdate, n - 2), frames[n - 2],
                       PaceAfter(frames, msPerUpdate, n - 2).lag, msPerUpdate);
        assert false;
      }
      assert frames[..n - 1] == frames[..n - 2] + [frames[n - 2]];
    }
  }

  /**
   * After the first `n` frames the trace has gained, since `c0`, the updates the frames paid
   * for and one render pass per frame, the last of the scene the loop ends on.
   */
  lemma {:induction false} TraceOfStateAfter(c0: Ctx, frames: seq<Frame>, msPerUpdate: real, n: nat)
    requires n <= |frames| && ElapsedNonNegative(frames) && msPerUpdate > 0.0
    ensures var r := StateAfter(c0, frames, msPerUpdate, n);
      TraceOfRun(c0.calls, r.calls, PaceAfter(frames, msPerUpdate, n).updates, n, r.current)
  {
    if n > 0 {
      TraceOfStateAfter(c0, frames, msPerUpdate, n - 1);
      var c := StateAfter(c0, frames, msPerUpdate, n - 1);
      var p := PaceAfter(frames, msPerUpdate, n - 1);
      assert TraceOfRun(c0.calls, c.calls, p.updates, n - 1, c.current);
      assert p.lag >= 0.0;
      assert frames[n - 1].elapsed >= 0.0;
      FrameStepTrace(c0.calls, c, frames[n - 1], p, msPerUpdate, n - 1);
    }
  }

  /**
   * Everything the main loop knows after `n` frames: the context is StateAfter those frames,
   * the clock is PaceAfter them, and the game was not done at any earlier loop head.
   */
  ghost predicate StartAt(c0: Ctx, frames: seq<Frame>, msPerUpdate: real, n: nat, now: Ctx, lag: real, updates: nat) {
    && n <= |frames| && ElapsedNonNegative(frames) && msPerUpdate > 0.0
    && now == StateAfter(c0, frames, msPerUpdate, n)
    && PaceAfter(frames, msPerUpdate, n) == Pace(lag, updates)
    && NotDoneBefore(c0, frames, msPerUpdate, n)
  }

  lemma StartStep(c0: Ctx, frames: seq<Frame>, msPerUpdate: real, n: nat, now: Ctx, lag: real, updates: nat,
                  next: Ctx, ticks: nat, lag': real)
    requires StartAt(c0, frames, msPerUpdate, n, now, lag, updates) && n < |frames| && !now.done
    requires next == FrameStep(now, frames[n], lag, msPerUpdate)
    requires ticks == Ticks(lag + frames[n].elapsed, msPerUpdate) && lag' == Leftover(lag + frames[n].elapsed, msPerUpdate)
    ensures StartAt(c0, frames, msPerUpdate, n + 1, next, lag', updates + ticks)
  {
  }

  /** What holds when the main loop stops: the game is done, or the frames ran out. */
  lemma StartEnd(c0: Ctx, frames: seq<Frame>, msPerUpdate: real, n: nat, now: Ctx, lag: real, updates: nat)
    requires StartAt(c0, frames, msPerUpdate, n, now, lag, updates) && (now.done || n == |frames|)
    ensures n <= |frames| && now == StateAfter(c0, frames, msPerUpdate, n)
    ensures forall k :: 0 <= k < n ==> !StateAfter(c0, frames, msPerUpdate, k).done
    ensures n < |frames| ==> now.done
    ensures c0.done ==> n == 0
    ensures n > 0 ==> NoQuitRequested(frames[..n - 1])
    ensures updates == TotalTicks(frames[..n], msPerUpdate)
    ensures TraceOfRun(c0.calls, now.calls, updates, n, now.current)
  {
    NotDoneBeforeAll(c0, frames, msPerUpdate, n);
    NoQuitBeforeLast(c0, frames, msPerUpdate, n);
    PaceProgress(frames, msPerUpdate, n);
    TraceOfStateAfter(c0, frames, msPerUpdate, n);
    if n > 0 {
      assert StateAfter(c0, frames, msPerUpdate, 0) == c0;
    }
  }

  class GameContext {
    var done: bool
    var currentScene: object?
    var calls: seq<SceneCall>
    const events: EventList
    const bus: Bus

    ghost predicate Valid()
      reads this, bus
    {
      events in bus.subscribers
    }

    /** The main loop's view of the context. */
    function State(): Ctx
      reads this, events
    {
      Ctx(done, currentScene, calls, events.items)
    }

    /** Registers the context's fresh event list on the bus; the game is not done. */
    constructor (bus: Bus)
      modifies bus
      ensures Valid() && this.bus == bus && fresh(events) && events.items == []
      ensures bus.subscribers == old(bus.subscribers) + {events}
      ensures !done && currentScene == null && calls == []
    {
      this.bus := bus;
      events := new EventList();
      done := false;
      currentScene := null;
      calls := [];
      new;
      bus.Register(events);
    }

    method ChangeScene(nextScene: object?)
      requires Valid() && currentScene != null
      modifies this`currentScene, this`calls, bus.subscribers
      ensures Valid() && currentScene != null
      ensures var r := ChangeSceneEffect(ContextState(done, old(currentScene), old(calls), []), nextScene);
        currentScene == r.current && calls == r.calls && bus.PostedExactly(r.posted)
    {
      if nextScene != null {
        calls := calls + [ExitCall(currentScene)];
        calls := calls + [EnterCall(nextScene)];
        if nextScene is ExitScene {
          var exitScene := nextScene as ExitScene;
          exitScene.Enter(bus);
        }
        currentScene := nextScene;
      }
    }

    /** The context's observer entry point: queue the event for the next poll. */
    method OnEvent(newEvent: Event)
      modifies events
      ensures events.items == old(events.items) + [newEvent]
    {
      events.Add(newEvent);
    }

    /** Handles one event of a poll. */
    method Dispatch(e: Event)
      requires Valid() && currentScene != null
      modifies this`done, this`currentScene, this`calls, bus.subscribers
      ensures Valid() && currentScene != null
      ensures var r := ContextEvent(ContextState(old(done), old(currentScene), old(calls), []), e);
        done == r.done && currentScene == r.current && calls == r.calls && bus.PostedExactly(r.posted)
    {
      if e.SceneStateEvent? {
        match e.eventType {
          case CHANGE_SCENE =>
            ChangeScene(e.newScene);
          case EXIT_GAME =>
            done := true;
          case _ =>
        }
      }
    }

    /**
     * One step of a poll: dispatches `e` once the poll has reached `before`. `base` holds
     * every subscriber's list as it was when the poll began.
     */
    method PollOne(e: Event, ghost before: ContextState, ghost base: map<EventList, seq<Event>>)
      requires Valid() && currentScene != null
      requires done == before.done && currentScene == before.current && calls == before.calls
      requires events.items == before.posted
      requires forall q :: q in bus.subscribers && q != events ==> q in base && q.items == base[q] + before.posted
      modifies this`done, this`currentScene, this`calls, bus.subscribers
      ensures Valid() && currentScene != null && bus.subscribers == old(bus.subscribers)
      ensures var r := ContextEvent(before, e);
        && done == r.done && currentScene == r.current && calls == r.calls
        && events.items == r.posted
        && forall q :: q in bus.subscribers && q != events ==> q.items == base[q] + r.posted
    {
      ghost var r0 := ContextEvent(before.(posted := []), e);
      Dispatch(e);
      ContextEventFrame(before, e);
      forall q | q in bus.subscribers && q != events
        ensures q.items == base[q] + (before.posted + r0.posted)
      {
        assert q.items == base[q] + before.posted + r0.posted;
      }
    }

    /**
     * Takes the pending events, clears the list, then dispatches them in arrival order.
     * Whatever is posted meanwhile lands in the cleared list, for the next poll.
     */
    method PollEvents()
      requires Valid() && currentScene != null
      modifies this`done, this`currentScene, this`calls, bus.subscribers
      ensures Valid() && currentScene != null && bus.subscribers == old(bus.subscribers)
      ensures var r := ContextEvents(ContextState(old(done), old(currentScene), old(calls), []), old(events.items));
        && done == r.done && currentScene == r.current && calls == r.calls
        && events.items == r.posted
        && forall q :: q in bus.subscribers && q != events ==> q.items == old(q.items) + r.posted
    {
      ghost var base := map q | q in bus.subscribers :: q.items;
      var snapshot := events.items;
      events.Clear();
      ghost var s0 := ContextState(done, currentScene, calls, []);
      var i := 0;
      while i < |snapshot|
        invariant 0 <= i <= |snapshot|
        invariant Valid() && currentScene != null && bus.subscribers == old(bus.subscribers)
        invariant var r := ContextEvents(s0, snapshot[..i]);
          && done == r.done && currentScene == r.current && calls == r.calls
          && events.items == r.posted
          && forall q :: q in bus.subscribers && q != events ==> q in base && q.items == base[q] + r.posted
      {
        PollOne(snapshot[i], ContextEvents(s0, snapshot[..i]), base);
        assert snapshot[..i + 1][..i] == snapshot[..i];
        i := i + 1;
      }
      assert snapshot[..|snapshot|] == snapshot;
    }

    /** Polls the events, then updates the scene that is current after the poll. */
    method Update()
      requires Valid() && currentScene != null
      modifies this`done, this`currentScene, this`calls, bus.subscribers
      ensures Valid() && currentScene != null && bus.subscribers == old(bus.subscribers)
      ensures State() == UpdateOnce(old(State()))
      ensures forall q :: q in bus.subscribers && q != events ==> q.items == old(q.items) + UpdateOnce(old(State())).pending
      ensures old(calls) <= calls && UpdateCount(calls) == UpdateCount(old(calls)) + 1
      ensures RenderCount(calls) == RenderCount(old(calls))
      ensures old(done) ==> done
    {
      ghost var s0 := ContextState(done, currentScene, calls, []);
      ghost var evs := events.items;
      PollEvents();
      calls := calls + [UpdateCall(currentScene)];
      PollAddsNoUpdateOrRender(s0, evs);
      CountsAppend(ContextEvents(s0, evs).calls, [UpdateCall(currentScene)]);
      assert [UpdateCall(currentScene)][..0] == [];
      if s0.done {
        DoneStaysSet(s0, evs);
      }
    }

    /** Asks the current scene to render every layer, in enumeration order. */
    method RenderAll()
      modifies this`calls
      ensures calls == old(calls) + RenderPass(currentScene)
      ensures RenderCount(calls) == RenderCount(old(calls)) + |ALL_LAYERS|
      ensures UpdateCount(calls) == UpdateCount(old(calls))
    {
      var i := 0;
      while i < |ALL_LAYERS|
        invariant 0 <= i <= |ALL_LAYERS|
        invariant |calls| == |old(calls)| + i && calls[..|old(calls)|] == old(calls)
        invariant forall k :: 0 <= k < i ==> calls[|old(calls)| + k] == RenderCall(currentScene, ALL_LAYERS[k])
      {
        calls := calls + [RenderCall(currentScene, ALL_LAYERS[i])];
        i := i + 1;
      }
      assert calls == old(calls) + RenderPass(currentScene);
      RenderPassCounts(currentScene, |ALL_LAYERS|);
      assert RenderPass(currentScene)[..|ALL_LAYERS|] == RenderPass(currentScene);
      CountsAppend(old(calls), RenderPass(currentScene));
    }

    /**
     * The inner loop of the main loop: while a whole step of lag is available, run one
     * Update and pay the step. Runs floor(lag0 / msPerUpdate) updates and leaves less than
     * one step of lag.
     */
    method CatchUp(lag0: real, msPerUpdate: real) returns (lag: real, updates: nat)
      requires Valid() && currentScene != null && lag0 >= 0.0 && msPerUpdate > 0.0
      modifies this`done, this`currentScene, this`calls, bus.subscribers
      ensures Valid() && currentScene != null && bus.subscribers == old(bus.subscribers)
      ensures updates == Ticks(lag0, msPerUpdate) == Steps(lag0, msPerUpdate) && lag == Leftover(lag0, msPerUpdate)
      ensures Scaled(updates, msPerUpdate) + lag == lag0 && 0.0 <= lag < msPerUpdate
      ensures State() == Updates(old(State()), updates)
      ensures old(calls) <= calls && UpdateCount(calls) == UpdateCount(old(calls)) + updates
      ensures RenderCount(calls) == RenderCount(old(calls))
      ensures old(done) ==> done
    {
      ghost var c0 := State();
      lag := lag0;
      updates := 0;
      while lag >= msPerUpdate
        invariant Valid() && currentScene != null && bus.subscribers == old(bus.subscribers)
        invariant CatchUpAt(lag0, msPerUpdate, lag, updates)
        invariant State() == Updates(c0, updates)
        decreases Ticks(lag0, msPerUpdate) - updates
      {
        CatchUpStep(lag0, msPerUpdate, lag, updates);
        Update();
        lag := lag - msPerUpdate;
        updates := updates + 1;
      }
      CatchUpEnd(lag0, msPerUpdate, lag, updates);
      UpdatesCounts(c0, updates);
      assert c0.calls == old(calls) && c0.done == old(done);
      assert calls == Updates(c0, updates).calls && done == Updates(c0, updates).done;
    }

    /**
     * One pass of the main loop: take the quit request, add the frame's elapsed time to the
     * lag, catch up with fixed updates, and render once.
     */
    method RunFrame(frame: Frame, lag0: real, msPerUpdate: real) returns (lag: real, ticks: nat)
      requires Valid() && currentScene != null && msPerUpdate > 0.0
      requires lag0 >= 0.0 && frame.elapsed >= 0.0
      modifies this`done, this`currentScene, this`calls, bus.subscribers
      ensures Valid() && currentScene != null && bus.subscribers == old(bus.subscribers)
      ensures ticks == Ticks(lag0 + frame.elapsed, msPerUpdate) && lag == Leftover(lag0 + frame.elapsed, msPerUpdate)
      ensures State() == FrameStep(old(State()), frame, lag0, msPerUpdate)
    {
      if frame.closeRequested {
        done := true;
      }
      lag, ticks := CatchUp(lag0 + frame.elapsed, msPerUpdate);
      RenderAll();
    }

    /**
     * The main loop, run over the frames the clock and the input produce: enter the main
     * menu scene, then for each frame until `done`, take the quit request, add the elapsed
     * time to the lag, catch up with fixed updates, and render once.
     */
    method Start(mainMenu: object, frames: seq<Frame>, msPerUpdate: real) returns (framesRun: nat, updates: nat, renders: nat)
      requires Valid() && msPerUpdate > 0.0 && ElapsedNonNegative(frames)
      modifies this`done, this`currentScene, this`calls, bus.subscribers
      ensures Valid() && bus.subscribers == old(bus.subscribers)
      ensures framesRun <= |frames| && renders == framesRun
      ensures var c0 := Ctx(old(done), mainMenu, old(calls) + [EnterCall(mainMenu)], old(events.items));
        && State() == StateAfter(c0, frames, msPerUpdate, framesRun)
        && forall k :: 0 <= k < framesRun ==> !StateAfter(c0, frames, msPerUpdate, k).done
      ensures framesRun < |frames| ==> done
      ensures old(done) ==> framesRun == 0
      ensures framesRun > 0 ==> NoQuitRequested(frames[..framesRun - 1])
      ensures updates == TotalTicks(frames[..framesRun], msPerUpdate)
      ensures TraceOfRun(old(calls) + [EnterCall(mainMenu)], calls, updates, renders, currentScene)
    {
      currentScene := mainMenu;
      calls := calls + [EnterCall(mainMenu)];
      ghost var c0 := State();
      var lag := 0.0;
      framesRun, updates, renders := 0, 0, 0;
      while !done && framesRun < |frames|
        invariant StartAt(c0, frames, msPerUpdate, framesRun, State(), lag, updates)
        invariant Valid() && currentScene != null && bus.subscribers == old(bus.subscribers)
        invariant renders == framesRun
        decreases |frames| - framesRun
      {
        var ticks;
        ghost var lag0 := lag;
        ghost var now := State();
        lag, ticks := RunFrame(frames[framesRun], lag, msPerUpdate);
        assert State() == FrameStep(now, frames[framesRun], lag0, msPerUpdate);
        StartStep(c0, frames, msPerUpdate, framesRun, now, lag0, updates, State(), ticks, lag);
        updates := updates + ticks;
        renders := renders + 1;
        framesRun := framesRun + 1;
      }
      StartEnd(c0, frames, msPerUpdate, framesRun, State(), lag, updates);
    }
  }

  /** The static `singleton` slot behind GameContext.Instance. */
  class GameContextSingleton {
    var singleton: GameContext?

    constructor ()
      ensures singleton == null
    {
      singleton := null;
    }

    /** Creates the context on first use; every later call returns that same object. */
    method Instance(bus: Bus) returns (g: GameContext)
      modifies this, bus
      ensures singleton == g
      ensures old(singleton) != null ==> g == old(singleton) && bus.subscribers == old(bus.subscribers)
      ensures old(singleton) == null ==>
        fresh(g) && g.Valid() && g.bus == bus && !g.done && bus.subscribers == old(bus.subscribers) + {g.events}
    {
      if singleton == null {
        singleton := new GameContext(bus);
      }
      g := singleton;
    }
  }
}
