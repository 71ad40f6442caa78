/**
 * Properties of the overlay controller over arbitrary event sequences: the invariant every
 * reachable state keeps (at most one overlay in the document, at most one pending timer,
 * the held reference is that overlay), debounce behaviour, teardown, and the listener
 * leak of `destroy`.
 */
module ControllerProperties {
  import opened Wrappers
  import opened Options
  import opened Document
  import opened Controller

  /** What holds in every state reachable from a page with at most one overlay. */
  predicate Inv(s: State)
  {
    && WellFormed(s)
    && (s.held.Some? ==> Holds(s.nodes[s.held.value], OverlayId))
    && AtMostOne(s.nodes, OverlayId)
    && SingleFlight(s)
  }

  /** Dropping elements from the document cannot create a second overlay. */
  lemma AtMostOneFewer(a: seq<Node>, b: seq<Node>)
    requires |a| == |b| && AtMostOne(a, OverlayId)
    requires forall i :: 0 <= i < |b| && Holds(b[i], OverlayId) ==> Holds(a[i], OverlayId)
    ensures AtMostOne(b, OverlayId)
  {
  }

  lemma LoadInv(hasWindow: bool, hasBody: bool, loaded: bool, vp: Viewport, page: seq<Node>)
    requires AtMostOne(page, OverlayId)
    ensures Inv(Load(hasWindow, hasBody, loaded, vp, page))
  {
  }

  lemma UpdateResolutionInv(s: State)
    requires Inv(s)
    ensures Inv(UpdateResolution(s))
  {
    var r := UpdateResolution(s);
    AtMostOneFewer(s.nodes, r.nodes);
  }

  lemma SetOpacityInv(s: State, value: string)
    requires Inv(s)
    ensures Inv(SetOpacity(s, value))
  {
    var r := SetOpacity(s, value);
    AtMostOneFewer(s.nodes, r.nodes);
  }

  lemma InitElementInv(s: State, opts: Options)
    requires Inv(s)
    ensures Inv(InitElement(s, opts))
  {
    var r := InitElement(s, opts);
    if GetElementById(s.nodes, OverlayId).None? {
      var n := |s.nodes|;
      forall i | 0 <= i < n
        ensures r.nodes[i] == s.nodes[i]
      {
        assert r.nodes[i] == r.nodes[..n][i];
      }
    }
  }

  lemma {:induction false} RunReadyQueueInv(s: State, q: seq<Options>)
    requires Inv(s)
    ensures Inv(RunReadyQueue(s, q))
    decreases |q|
  {
    if |q| > 0 {
      InitElementInv(s, q[0]);
      RunReadyQueueInv(InitElement(s, q[0]), q[1..]);
    }
  }

  lemma DestroyInv(s: State)
    requires Inv(s)
    ensures Inv(Destroy(s))
  {
    var r := Destroy(s);
    AtMostOneFewer(s.nodes, r.nodes);
  }

  lemma FireTimerInv(s: State, handle: nat)
    requires Inv(s)
    ensures Inv(FireTimer(s, handle))
  {
    var r := FireTimer(s, handle);
    AtMostOneFewer(s.nodes, r.nodes);
    if |r.timers| > 0 {
      assert r.timers[0] in r.timers;
    }
  }

  lemma StepInv(s: State, e: Event)
    requires Inv(s)
    ensures Inv(Step(s, e))
  {
    match e
    case CallInit(o) =>
      if s.hasWindow && s.hasBody {
        InitElementInv(s, Merge(o));
      }
    case CallHide => SetOpacityInv(s, "0");
    case CallShow => SetOpacityInv(s, "1");
    case CallUpdate => UpdateResolutionInv(s);
    case CallDestroy => DestroyInv(s);
    case BodyReady =>
    case DomContentLoaded =>
      if !s.loaded {
        RunReadyQueueInv(s.(loaded := true, readyQueue := []), s.readyQueue);
      }
    case WindowResized(vp) =>
    case TimerElapsed(h) => FireTimerInv(s, h);
  }

  /**
   * Whatever happens, at most one element carries the overlay id, at most one debounce
   * timer is pending, and the held element is that overlay.
   */
  lemma {:induction false} RunInv(s: State, es: seq<Event>)
    requires Inv(s)
    ensures Inv(Run(s, es))
    ensures |Run(s, es).timers| <= 1
    ensures AtMostOne(Run(s, es).nodes, OverlayId)
    decreases |es|
  {
    if |es| > 0 {
      StepInv(s, es[0]);
      RunInv(Step(s, es[0]), es[1..]);
    }
  }

  /**
   * A second `init` on a document whose body exists adopts the overlay the first one
   * created or adopted: no element or listener is added, and exactly one overlay is there.
   */
  lemma InitTwiceKeepsOneOverlay(s: State, a: Overrides, b: Overrides)
    requires Inv(s) && s.hasWindow && s.hasBody
    ensures var s1 := Step(s, CallInit(a));
      var s2 := Step(s1, CallInit(b));
      && s2.nodes == s1.nodes
      && s2.listeners == s1.listeners
      && s2.held == s1.held
      && s2.held.Some?
      && (forall j :: 0 <= j < |s2.nodes| && Holds(s2.nodes[j], OverlayId) <==> Some(j) == s2.held)
  {
    var s1 := Step(s, CallInit(a));
    InitElementInv(s, Merge(a));
    assert Holds(s1.nodes[s1.held.value], OverlayId);
    var found := GetElementById(s1.nodes, OverlayId);
    assert found == s1.held;
  }

  /** The event sequence of window resizes to the given viewports, in order. */
  function Resizes(vps: seq<Viewport>): (es: seq<Event>)
    ensures |es| == |vps|
    ensures forall k :: 0 <= k < |vps| ==> es[k] == WindowResized(vps[k])
  {
    if |vps| == 0 then [] else [WindowResized(vps[0])] + Resizes(vps[1..])
  }

  /** One resize event seen by at least one listener: cancel-and-rearm, text untouched. */
  lemma ResizeRearms(s: State, vp: Viewport)
    requires Inv(s) && |s.listeners| > 0
    ensures var r := Resize(s, vp);
      && r.resizeTimeout.Some?
      && r.timers == [Timer(r.resizeTimeout.value, s.listeners[|s.listeners| - 1].delay)]
      && r.viewport == vp
      && r.nodes == s.nodes && r.held == s.held && r.listeners == s.listeners
      && Inv(r)
  {
  }

  /**
   * After any non-empty burst of resize events, exactly one timer is pending, carrying the
   * delay of the most recently registered listener; the text has not been touched.
   */
  lemma {:induction false} ResizeBurstLeavesOneTimer(s: State, vps: seq<Viewport>)
    requires Inv(s) && |s.listeners| > 0 && |vps| > 0
    ensures var r := Run(s, Resizes(vps));
      && r.resizeTimeout.Some?
      && r.timers == [Timer(r.resizeTimeout.value, s.listeners[|s.listeners| - 1].delay)]
      && r.viewport == vps[|vps| - 1]
      && r.nodes == s.nodes && r.held == s.held && r.listeners == s.listeners
      && Inv(r)
    decreases |vps|
  {
    var es := Resizes(vps);
    ResizeRearms(s, vps[0]);
    var s1 := Resize(s, vps[0]);
    assert Run(s, es) == Run(s1, es[1..]);
    if |vps| == 1 {
      assert es[1..] == [];
    } else {
      assert es[1..] == Resizes(vps[1..]);
      ResizeBurstLeavesOneTimer(s1, vps[1..]);
    }
  }

  /**
   * Last resize wins: when the one pending timer of a resize burst fires, the held
   * overlay shows the viewport of the burst's last event, and no timer is left pending.
   */
  lemma LastResizeWins(s: State, vps: seq<Viewport>)
    requires Inv(s) && |s.listeners| > 0 && |vps| > 0 && s.held.Some?
    ensures var r := Run(s, Resizes(vps));
      && r.resizeTimeout.Some?
      && var f := FireTimer(r, r.resizeTimeout.value);
         var last := vps[|vps| - 1];
         && s.held.value < |f.nodes|
         && f.nodes[s.held.value].text == Resolution.ResolutionText(last.width, last.height)
         && f.timers == []
  {
    ResizeBurstLeavesOneTimer(s, vps);
    var r := Run(s, Resizes(vps));
    FireSoleTimer(r, r.timers[0]);
  }

  /** Firing the one pending timer writes the viewport of that moment and leaves none. */
  lemma FireSoleTimer(r: State, t: Timer)
    requires WellFormed(r) && r.timers == [t] && r.held.Some?
    ensures var f := FireTimer(r, t.handle);
      && r.held.value < |f.nodes|
      && f.nodes[r.held.value].text == ViewportText(r)
      && f.timers == []
  {
    assert r.timers[0].handle == t.handle;
  }

  /**
   * After `destroy`, nothing is pending and `show`, `hide`, `update` and any timer are
   * no-ops; the overlay it held is gone from the document.
   */
  lemma DestroyThenNoOps(s: State)
    requires Inv(s)
    ensures var d := Destroy(s);
      && d.timers == []
      && Show(d) == d && Hide(d) == d && UpdateResolution(d) == d
      && (forall h: nat :: FireTimer(d, h) == d)
      && (s.held.Some? ==> GetElementById(d.nodes, OverlayId).None?)
  {
    var d := Destroy(s);
  }

  /** One round of `init` then `destroy` on a page with no overlay and a body. */
  lemma InitDestroyRound(s: State, o: Overrides)
    requires Inv(s) && s.hasWindow && s.hasBody && GetElementById(s.nodes, OverlayId).None?
    ensures var r := Destroy(Init(s, o).0);
      && Inv(r) && r.hasWindow && r.hasBody
      && GetElementById(r.nodes, OverlayId).None?
      && r.held.None?
      && r.listeners == s.listeners + [Listener(s.nextClosure, Merge(o).debounceDelay)]
  {
    var s1 := Init(s, o).0;
    InitElementInv(s, Merge(o));
    DestroyThenNoOps(s1);
    DestroyInv(s1);
  }

  /** A page with a window and a body and no overlay in it, in an invariant state. */
  predicate Bare(s: State)
  {
    Inv(s) && s.hasWindow && s.hasBody && GetElementById(s.nodes, OverlayId).None?
  }

  /** One `init(o)` then `destroy()`: the page is bare again, with one more listener. */
  function Round(s: State, o: Overrides): (r: State)
    requires Bare(s)
    ensures Bare(r) && r.held.None?
    ensures r.listeners == s.listeners + [Listener(s.nextClosure, Merge(o).debounceDelay)]
  {
    InitDestroyRound(s, o);
    Destroy(Init(s, o).0)
  }

  /**
   * The listener leak: the state after `n` rounds of `init(o)` then `destroy()` on a bare
   * page. The page is bare again (no overlay, at most one pending timer), yet every round
   * has left its resize listener registered.
   */
  function Rounds(s: State, o: Overrides, n: nat): (r: State)
    requires Bare(s)
    ensures Bare(r) && (n > 0 ==> r.held.None?)
    ensures |r.listeners| == |s.listeners| + n
    decreases n
  {
    if n == 0 then s else Rounds(Round(s, o), o, n - 1)
  }

  /** A round, as the event sequence `init(o)`, `destroy()`. */
  lemma RoundIsInitThenDestroy(s: State, o: Overrides)
    requires Bare(s)
    ensures Run(s, [CallInit(o), CallDestroy]) == Round(s, o)
  {
    var es := [CallInit(o), CallDestroy];
    var s1 := Init(s, o).0;
    var s2 := Destroy(s1);
    assert Step(s, es[0]) == s1;
    assert Run(s, es) == Run(s1, es[1..]);
    assert es[1..] == [CallDestroy];
    assert Step(s1, CallDestroy) == s2;
    assert Run(s1, [CallDestroy]) == Run(s2, [CallDestroy][1..]);
    assert [CallDestroy][1..] == [];
  }

  /**
   * Before the body exists, `init` returns its handle at once and touches neither the
   * document nor the listeners; once DOMContentLoaded fires, an overlay is held and is in
   * the document.
   */
  lemma DeferredInit(s: State, o: Overrides)
    requires Inv(s) && s.hasWindow && !s.hasBody && !s.loaded
    ensures var (s1, h) := Init(s, o);
      && h == Some(Handle(Merge(o)))
      && s1.nodes == s.nodes && s1.held == s.held && s1.listeners == s.listeners
      && var s2 := Step(s1, DomContentLoaded);
         s2.held.Some? && Holds(s2.nodes[s2.held.value], OverlayId)
  {
    var s1 := Init(s, o).0;
    StepInv(s1, DomContentLoaded);
  }

  /**
   * `destroy` before DOMContentLoaded does not cancel a queued `initElement`: the overlay
   * is still created (or adopted) and held once the document is ready.
   */
  lemma DestroyBeforeReadyStillInitializes(s: State, o: Overrides)
    requires Inv(s) && s.hasWindow && !s.hasBody && !s.loaded
    ensures var r := ContentLoaded(BodyParsed(Destroy(Init(s, o).0)));
      r.held.Some? && Holds(r.nodes[r.held.value], OverlayId)
  {
    var s1 := Init(s, o).0;
    DestroyInv(s1);
    var s3 := BodyParsed(Destroy(s1));
    assert s3.readyQueue == s.readyQueue + [Merge(o)];
    StepInv(s3, DomContentLoaded);
  }

  /** While the overlay is held, another `initElement` only adopts it again: no change. */
  lemma AdoptHeldIsNoOp(s: State, opts: Options)
    requires Inv(s) && s.held.Some?
    ensures InitElement(s, opts) == s
  {
    var found := GetElementById(s.nodes, OverlayId);
    assert Holds(s.nodes[s.held.value], OverlayId);
    assert found == s.held;
  }

  /** Queued `initElement` closures that run while an overlay is held change nothing. */
  lemma {:induction false} RunReadyQueueAdoptsAll(s: State, q: seq<Options>)
    requires Inv(s) && s.held.Some?
    ensures RunReadyQueue(s, q) == s
    decreases |q|
  {
    if |q| > 0 {
      AdoptHeldIsNoOp(s, q[0]);
      RunReadyQueueAdoptsAll(s, q[1..]);
    }
  }

  /**
   * DOMContentLoaded runs the queued `initElement` closures in order: the first one
   * creates (or adopts) the overlay with its options, and every later one only adopts it,
   * so their options are ignored.
   */
  lemma RunReadyQueueFirstWins(s: State, q: seq<Options>)
    requires Inv(s) && |q| > 0
    ensures RunReadyQueue(s, q) == InitElement(s, q[0])
  {
    var s1 := InitElement(s, q[0]);
    InitElementInv(s, q[0]);
    RunReadyQueueAdoptsAll(s1, q[1..]);
  }

  /** DOMContentLoaded is the first queued `initElement` alone, run on the loaded page. */
  lemma ContentLoadedRunsFirstInit(s: State)
    requires Inv(s) && !s.loaded && |s.readyQueue| > 0
    ensures ContentLoaded(s) == InitElement(s.(loaded := true, readyQueue := []), s.readyQueue[0])
  {
    RunReadyQueueFirstWins(s.(loaded := true, readyQueue := []), s.readyQueue);
  }

  /**
   * On a page with no overlay, DOMContentLoaded appends exactly one overlay styled by the
   * first queued options, showing the viewport, and registers exactly one listener.
   */
  lemma ContentLoadedCreatesOnce(s: State)
    requires Inv(s) && !s.loaded && |s.readyQueue| > 0 && GetElementById(s.nodes, OverlayId).None?
    ensures var r := ContentLoaded(s);
      var opts := s.readyQueue[0];
      && |r.nodes| == |s.nodes| + 1
      && r.nodes[..|s.nodes|] == s.nodes
      && r.held == Some(|s.nodes|)
      && r.nodes[|s.nodes|] ==
           CreateElement(opts).(parent := Some(if s.hasBody then Body else Root), text := ViewportText(s))
      && r.listeners == s.listeners + [Listener(s.nextClosure, opts.debounceDelay)]
      && r.loaded && r.readyQueue == []
  {
    var s0 := s.(loaded := true, readyQueue := []);
    RunReadyQueueFirstWins(s0, s.readyQueue);
  }

  /**
   * The leak's consequence: after `destroy`, a resize still arms a timer whenever some
   * listener was registered, so `destroy` does not leave the page without pending work.
   */
  lemma DestroyLeavesResizeArmed(s: State, vp: Viewport)
    requires Inv(s) && |s.listeners| > 0
    ensures var d := Destroy(s);
      && d.timers == []
      && |Resize(d, vp).timers| == 1
  {
    DestroyInv(s);
    DestroyThenNoOps(s);
    ResizeRearms(Destroy(s), vp);
  }

  /** Unregistering a closure just appended, and never registered before, undoes it. */
  lemma {:induction false} RemoveAppendedListener(ls: seq<Listener>, l: Listener)
    requires forall k :: 0 <= k < |ls| ==> ls[k].closure != l.closure
    ensures RemoveEventListener(ls + [l], l.closure) == ls
    decreases |ls|
  {
    if |ls| == 0 {
      assert RemoveEventListener([l][1..], l.closure) == [];
    } else {
      assert (ls + [l])[1..] == ls[1..] + [l];
      RemoveAppendedListener(ls[1..], l);
      assert [ls[0]] + ls[1..] == ls;
    }
  }

  /** One `init(o)` then the intended `destroy()`: the page is bare and its listeners as before. */
  function IntendedRound(s: State, o: Overrides): (r: State)
    requires Bare(s)
    ensures Bare(r) && r.held.None?
    ensures r.listeners == s.listeners
    ensures r.timers == []
  {
    var s1 := Init(s, o).0;
    InitElementInv(s, Merge(o));
    DestroyInv(s1);
    DestroyThenNoOps(s1);
    RemoveAppendedListener(s.listeners, Listener(s.nextClosure, Merge(o).debounceDelay));
    DestroyIntended(s1)
  }

  /**
   * With the intended teardown, any number of `init(o)`, `destroy()` rounds leave the
   * registered listeners exactly as they were.
   */
  function IntendedRounds(s: State, o: Overrides, n: nat): (r: State)
    requires Bare(s)
    ensures Bare(r) && (n > 0 ==> r.held.None?)
    ensures r.listeners == s.listeners
    decreases n
  {
    if n == 0 then s else IntendedRounds(IntendedRound(s, o), o, n - 1)
  }

  /** With the intended teardown, a resize after a round on a listener-free page arms nothing. */
  lemma IntendedRoundArmsNothing(s: State, o: Overrides, vp: Viewport)
    requires Bare(s) && s.listeners == []
    ensures Resize(IntendedRound(s, o), vp).timers == []
  {
  }

  /**
   * Leaked listeners still share one timer: after a round and a fresh `init`, two
   * listeners are registered, yet a resize leaves exactly one timer pending.
   */
  lemma LeakedListenersShareOneTimer(s: State, o: Overrides, vp: Viewport)
    requires Bare(s)
    ensures var r := Resize(Init(Round(s, o), o).0, vp);
      && |r.listeners| == |s.listeners| + 2
      && |r.timers| == 1
      && r.timers[0].delay == Merge(o).debounceDelay
  {
    var s1 := Round(s, o);
    var s2 := Init(s1, o).0;
    InitElementInv(s1, Merge(o));
    assert |s2.listeners| == |s.listeners| + 2;
    ResizeRearms(s2, vp);
  }

  /** The page of the worked scenario: a body, no overlay, a 1024 by 768 viewport. */
  function ScenarioPage(): State
  {
    Load(true, true, false, Viewport(1024, 768), [])
  }

  /** `init({ position: 'bottom-right', debounceDelay: 50 })`. */
  function ScenarioOverrides(): Overrides
  {
    NoOverrides.(position := Some("bottom-right"), debounceDelay := Some(50))
  }

  /**
   * A worked scenario, first half: on an empty 1024 by 768 page, `init` anchored
   * bottom-right shows "1024 × 768" in a new overlay pinned to the bottom-right corner.
   */
  lemma ScenarioInit()
    ensures var s1 := Init(ScenarioPage(), ScenarioOverrides()).0;
      && Inv(s1)
      && s1.held == Some(0)
      && s1.listeners == [Listener(0, 50)]
      && s1.nodes[0].look.insets == map[Position.Bottom := "8px", Position.Right := "8px"]
      && s1.nodes[0].text == "1024 \U{D7} 768"
  {
    var s0 := ScenarioPage();
    var o := ScenarioOverrides();
    LoadInv(true, true, false, Viewport(1024, 768), []);
    InitElementInv(s0, Merge(o));
    assert Position.GetPositionStylesAsWritten("bottom-right") == map[Position.Bottom := "8px", Position.Right := "8px"];
    assert Resolution.Decimal(1024) == "1024";
    assert Resolution.Decimal(768) == "768";
  }

  /** A resize seen by one listener with delay 50, then that timer firing. */
  lemma ResizeThenFire(s1: State, vp: Viewport)
    requires Inv(s1) && s1.held == Some(0) && s1.listeners == [Listener(0, 50)] && s1.nextHandle == 1
    ensures var s2 := Resize(s1, vp);
      && s2.timers == [Timer(1, 50)]
      && 0 < |FireTimer(s2, 1).nodes|
      && FireTimer(s2, 1).nodes[0].text == Resolution.ResolutionText(vp.width, vp.height)
  {
    ResizeRearms(s1, vp);
    var s2 := Resize(s1, vp);
    FireSoleTimer(s2, s2.timers[0]);
  }

  /**
   * A worked scenario, second half: a resize to 800 by 600 arms one 50 ms timer,
   * and when it fires the overlay shows "800 × 600".
   */
  lemma ScenarioResize()
    ensures var s1 := Init(ScenarioPage(), ScenarioOverrides()).0;
      var s2 := Resize(s1, Viewport(800, 600));
      && s2.timers == [Timer(1, 50)]
      && 0 < |FireTimer(s2, 1).nodes|
      && FireTimer(s2, 1).nodes[0].text == "800 \U{D7} 600"
  {
    var s1 := Init(ScenarioPage(), ScenarioOverrides()).0;
    assert Inv(s1) && s1.held == Some(0) && s1.listeners == [Listener(0, 50)] && s1.nextHandle == 1 by {
      ScenarioInit();
    }
    assert Resolution.ResolutionText(800, 600) == "800 \U{D7} 600" by {
      assert Resolution.Decimal(800) == "800";
      assert Resolution.Decimal(600) == "600";
    }
    ResizeThenFire(s1, Viewport(800, 600));
  }
}
