/**
 * The overlay controller of src/index.js as a state machine over an abstract host. The
 * module-level variables `screenElement` and `resizeTimeout`, the host's pending timers,
 * its resize and DOMContentLoaded listeners, the document's nodes and the viewport form
 * one immutable State; each host event and each call into the module is a pure
 * transition function.
 */
module Controller {
  import opened Wrappers
  import opened Options
  import Position
  import Resolution
  import opened Document

  datatype Viewport = Viewport(width: nat, height: nat)

  /** A callback the host has scheduled with `setTimeout` and not yet run. */
  datatype Timer = Timer(handle: nat, delay: int)

  /**
   * A registered resize listener: the closure `() => handleResize(opts.debounceDelay)`,
   * identified as JavaScript identifies functions, by the object it is.
   */
  datatype Listener = Listener(closure: nat, delay: int)

  /** The object `init` returns; its operations act on the module-level state. */
  datatype Handle = Handle(options: Options)

  datatype State = State(
    hasWindow: bool,          // `typeof window !== 'undefined'`
    hasBody: bool,            // `document.body` is non-null
    loaded: bool,             // DOMContentLoaded has been dispatched
    viewport: Viewport,       // `window.innerWidth`, `window.innerHeight`
    nodes: seq<Node>,         // every element, in the order inserted; a reference is an index
    held: Option<nat>,        // `screenElement`
    resizeTimeout: Option<nat>, // `resizeTimeout`
    timers: seq<Timer>,       // the host's pending timers
    nextHandle: nat,          // the handle the next `setTimeout` returns
    listeners: seq<Listener>, // resize listeners on the window, in registration order
    nextClosure: nat,         // identity of the next closure created
    ownListener: Option<nat>, // the listener the last created overlay's `initElement` registered
    readyQueue: seq<Options>  // `initElement` closures awaiting DOMContentLoaded
  )

  /** References point at existing nodes and every timer handle and closure is fresh-issued. */
  predicate WellFormed(s: State)
  {
    && (s.held.Some? ==> s.held.value < |s.nodes|)
    && (forall k :: 0 <= k < |s.timers| ==> s.timers[k].handle < s.nextHandle)
    && (forall k :: 0 <= k < |s.listeners| ==> s.listeners[k].closure < s.nextClosure)
  }

  /**
   * The state right after the module is loaded into a page (before any `init`); `loaded`
   * says whether DOMContentLoaded was already dispatched, as for a deferred or async script.
   */
  function Load(hasWindow: bool, hasBody: bool, loaded: bool, viewport: Viewport, page: seq<Node>): (r: State)
    ensures WellFormed(r)
    ensures r.held.None? && r.resizeTimeout.None? && r.timers == [] && r.listeners == [] && r.readyQueue == []
    ensures r.nodes == page && r.viewport == viewport && r.loaded == loaded
    ensures r.hasWindow == hasWindow && r.hasBody == hasBody && r.ownListener.None?
  {
    State(hasWindow, hasBody, loaded, viewport, page, None, None, [], 1, [], 0, None, [])
  }

  /** The overlay text for the current viewport. */
  function ViewportText(s: State): string
  {
    Resolution.ResolutionText(s.viewport.width, s.viewport.height)
  }

  /**
   * `updateResolution` (src/index.js:48-54): writes the current viewport into the held
   * element's text; with nothing held it does nothing.
   */
  function UpdateResolution(s: State): (r: State)
    requires WellFormed(s)
    ensures WellFormed(r)
    ensures s.held.None? ==> r == s
    ensures s.held.Some? ==>
      var i := s.held.value;
      && |r.nodes| == |s.nodes|
      && r.nodes[i] == s.nodes[i].(text := ViewportText(s))
      && (forall j :: 0 <= j < |s.nodes| && j != i ==> r.nodes[j] == s.nodes[j])
    ensures r == s.(nodes := r.nodes)
  {
    match s.held
    case None => s
    case Some(i) => s.(nodes := s.nodes[i := s.nodes[i].(text := ViewportText(s))])
  }

  /**
   * `clearTimeout(handle)`: drops the pending timer with that handle; `clearTimeout(null)`
   * drops nothing.
   */
  function ClearTimeout(timers: seq<Timer>, handle: Option<nat>): (r: seq<Timer>)
    ensures forall t :: t in r <==> t in timers && Some(t.handle) != handle
    ensures |r| <= |timers|
  {
    if |timers| == 0 then []
    else if Some(timers[0].handle) == handle then ClearTimeout(timers[1..], handle)
    else [timers[0]] + ClearTimeout(timers[1..], handle)
  }

  /**
   * `handleResize(delay)` (src/index.js:56-61): cancels the timer `resizeTimeout` names,
   * then schedules a fresh one and stores its handle there.
   */
  function HandleResize(s: State, delay: int): (r: State)
    requires WellFormed(s)
    ensures WellFormed(r)
    ensures r.resizeTimeout == Some(s.nextHandle) && r.nextHandle == s.nextHandle + 1
    ensures forall t :: t in r.timers <==>
      t == Timer(s.nextHandle, delay) || (t in s.timers && Some(t.handle) != s.resizeTimeout)
    ensures r == s.(timers := r.timers, resizeTimeout := r.resizeTimeout, nextHandle := r.nextHandle)
  {
    var remaining := ClearTimeout(s.timers, s.resizeTimeout);
    s.(timers := remaining + [Timer(s.nextHandle, delay)],
       resizeTimeout := Some(s.nextHandle),
       nextHandle := s.nextHandle + 1)
  }

  /** Every pending timer is the one `resizeTimeout` names, so there is at most one. */
  predicate SingleFlight(s: State)
  {
    && |s.timers| <= 1
    && forall k :: 0 <= k < |s.timers| ==> Some(s.timers[k].handle) == s.resizeTimeout
  }

  /** Cancel-and-rearm from a single-flight state leaves exactly the new timer pending. */
  lemma HandleResizeRearms(s: State, delay: int)
    requires WellFormed(s)
    ensures SingleFlight(s) ==> HandleResize(s, delay).timers == [Timer(s.nextHandle, delay)]
  {
  }

  /** Runs each resize listener in registration order, as the host dispatches `resize`. */
  function DispatchResize(s: State, ls: seq<Listener>): (r: State)
    requires WellFormed(s)
    ensures WellFormed(r)
    ensures r.nextHandle == s.nextHandle + |ls|
    ensures |ls| == 0 ==> r == s
    ensures |ls| > 0 ==> r.resizeTimeout == Some(r.nextHandle - 1)
    ensures |ls| > 0 && SingleFlight(s) ==> r.timers == [Timer(r.nextHandle - 1, ls[|ls| - 1].delay)]
    ensures SingleFlight(s) ==> SingleFlight(r)
    ensures r == s.(timers := r.timers, resizeTimeout := r.resizeTimeout, nextHandle := r.nextHandle)
    decreases |ls|
  {
    if |ls| == 0 then s
    else
      var s1 := HandleResize(s, ls[0].delay);
      HandleResizeRearms(s, ls[0].delay);
      DispatchResize(s1, ls[1..])
  }

  /** The window is resized to `vp`: the viewport changes, then `resize` is dispatched. */
  function Resize(s: State, vp: Viewport): (r: State)
    requires WellFormed(s)
    ensures WellFormed(r)
    ensures r.viewport == vp
    ensures r.nodes == s.nodes && r.held == s.held && r.listeners == s.listeners
    ensures |s.listeners| == 0 ==> r.timers == s.timers
    ensures |s.listeners| > 0 && SingleFlight(s) ==>
      r.resizeTimeout.Some? &&
      r.timers == [Timer(r.resizeTimeout.value, s.listeners[|s.listeners| - 1].delay)]
    ensures SingleFlight(s) ==> SingleFlight(r)
    ensures r == s.(viewport := vp, timers := r.timers, resizeTimeout := r.resizeTimeout,
                    nextHandle := r.nextHandle)
  {
    var s1 := s.(viewport := vp);
    DispatchResize(s1, s1.listeners)
  }

  /** The host runs the pending timer with this handle, if any: the debounced update. */
  function FireTimer(s: State, handle: nat): (r: State)
    requires WellFormed(s)
    ensures WellFormed(r)
    ensures (forall k :: 0 <= k < |s.timers| ==> s.timers[k].handle != handle) ==> r == s
    ensures forall t :: t in r.timers <==> t in s.timers && t.handle != handle
    ensures |r.timers| <= |s.timers|
    ensures r == s.(nodes := r.nodes, timers := r.timers)
    ensures (exists k :: 0 <= k < |s.timers| && s.timers[k].handle == handle) && s.held.Some? ==>
      var i := s.held.value;
      r.nodes == s.nodes[i := s.nodes[i].(text := ViewportText(s))]
    ensures s.held.None? ==> r.nodes == s.nodes
  {
    if exists k :: 0 <= k < |s.timers| && s.timers[k].handle == handle then
      UpdateResolution(s.(timers := ClearTimeout(s.timers, Some(handle))))
    else
      s
  }

  /**
   * `createElement(options)` (src/index.js:21-46): a detached element with the overlay id,
   * no text and no opacity set, styled from the configuration. The insets come from the
   * position lookup as the program runs it, so a position naming an `Object.prototype`
   * member pins the element to no corner.
   */
  function CreateElement(opts: Options): (n: Node)
    ensures n.id == OverlayId && n.parent.None? && n.text == "" && n.opacity == ""
    ensures opts.position !in Position.InheritedMembers ==>
      n.look.insets == Position.GetPositionStyles(opts.position)
    ensures opts.position in Position.InheritedMembers ==> n.look.insets == map[]
    ensures n.look.color == opts.color && n.look.backgroundColor == opts.backgroundColor
    ensures n.look.fontSize == opts.fontSize
  {
    Node(OverlayId, None, "", "",
         Look(Position.GetPositionStylesAsWritten(opts.position), opts.color, opts.backgroundColor, opts.fontSize))
  }

  /**
   * `initElement` (src/index.js:71-82): adopts the element already carrying the overlay id,
   * or else creates one, appends it to the body (the root when there is no body), shows
   * the viewport in it and registers one more resize listener.
   */
  function InitElement(s: State, opts: Options): (r: State)
    requires WellFormed(s)
    ensures WellFormed(r)
    ensures GetElementById(s.nodes, OverlayId).Some? ==>
      r == s.(held := GetElementById(s.nodes, OverlayId))
    ensures GetElementById(s.nodes, OverlayId).None? ==>
      && |r.nodes| == |s.nodes| + 1
      && r.nodes[..|s.nodes|] == s.nodes
      && r.held == Some(|s.nodes|)
      && r.nodes[|s.nodes|] ==
           CreateElement(opts).(parent := Some(if s.hasBody then Body else Root), text := ViewportText(s))
      && r.listeners == s.listeners + [Listener(s.nextClosure, opts.debounceDelay)]
      && r == s.(nodes := r.nodes, held := r.held, listeners := r.listeners,
                 nextClosure := s.nextClosure + 1, ownListener := Some(s.nextClosure))
  {
    match GetElementById(s.nodes, OverlayId)
    case Some(i) => s.(held := Some(i))
    case None =>
      var host := if s.hasBody then Body else Root;
      var appended := s.(nodes := s.nodes + [CreateElement(opts).(parent := Some(host))],
                         held := Some(|s.nodes|));
      var shown := UpdateResolution(appended);
      assert shown.nodes[..|s.nodes|] == s.nodes;
      shown.(listeners := shown.listeners + [Listener(s.nextClosure, opts.debounceDelay)],
             nextClosure := s.nextClosure + 1,
             ownListener := Some(s.nextClosure))
  }

  /**
   * `init(options)` (src/index.js:63-107): without a window it returns null and changes
   * nothing; otherwise it merges the options, runs `initElement` now if the body exists or
   * queues it for DOMContentLoaded, and returns the handle either way.
   */
  function Init(s: State, o: Overrides): (r: (State, Option<Handle>))
    requires WellFormed(s)
    ensures WellFormed(r.0)
    ensures !s.hasWindow ==> r == (s, None)
    ensures s.hasWindow ==> r.1 == Some(Handle(Merge(o)))
    ensures s.hasWindow && s.hasBody ==> r.0 == InitElement(s, Merge(o))
    ensures s.hasWindow && !s.hasBody ==> r.0 == s.(readyQueue := s.readyQueue + [Merge(o)])
  {
    if !s.hasWindow then (s, None)
    else
      var opts := Merge(o);
      if s.hasBody then (InitElement(s, opts), Some(Handle(opts)))
      else (s.(readyQueue := s.readyQueue + [opts]), Some(Handle(opts)))
  }

  /** Runs queued `initElement` closures in the order they were registered. */
  function RunReadyQueue(s: State, q: seq<Options>): (r: State)
    requires WellFormed(s)
    ensures WellFormed(r)
    ensures |q| == 0 ==> r == s
    ensures |q| > 0 ==> r.held.Some?
    ensures r.readyQueue == s.readyQueue && r.hasBody == s.hasBody && r.loaded == s.loaded
    decreases |q|
  {
    if |q| == 0 then s
    else RunReadyQueue(InitElement(s, q[0]), q[1..])
  }

  /** The parser has reached the body element. */
  function BodyParsed(s: State): (r: State)
    ensures r.hasBody && r == s.(hasBody := true)
  {
    s.(hasBody := true)
  }

  /** DOMContentLoaded is dispatched, once: every queued `initElement` runs. */
  function ContentLoaded(s: State): (r: State)
    requires WellFormed(s)
    ensures WellFormed(r)
    ensures r.loaded
    ensures s.loaded ==> r == s
    ensures !s.loaded ==> r.readyQueue == []
    ensures !s.loaded && |s.readyQueue| == 0 ==> r == s.(loaded := true)
    ensures !s.loaded && |s.readyQueue| > 0 ==> r.held.Some?
  {
    if s.loaded then s
    else RunReadyQueue(s.(loaded := true, readyQueue := []), s.readyQueue)
  }

  /** Sets the held element's inline opacity; with nothing held it does nothing. */
  function SetOpacity(s: State, value: string): (r: State)
    requires WellFormed(s)
    ensures WellFormed(r)
    ensures s.held.None? ==> r == s
    ensures s.held.Some? ==>
      var i := s.held.value;
      && |r.nodes| == |s.nodes|
      && r.nodes[i] == s.nodes[i].(opacity := value)
      && (forall j :: 0 <= j < |s.nodes| && j != i ==> r.nodes[j] == s.nodes[j])
    ensures r == s.(nodes := r.nodes)
  {
    match s.held
    case None => s
    case Some(i) => s.(nodes := s.nodes[i := s.nodes[i].(opacity := value)])
  }

  /** `handle.hide()` (src/index.js:91-93). */
  function Hide(s: State): (r: State)
    requires WellFormed(s)
    ensures WellFormed(r)
    ensures s.held.Some? ==>
      var i := s.held.value;
      r.nodes == s.nodes[i := s.nodes[i].(opacity := "0")]
    ensures s.held.None? ==> r == s
    ensures r == s.(nodes := r.nodes)
  {
    SetOpacity(s, "0")
  }

  /** `handle.show()` (src/index.js:94-96). */
  function Show(s: State): (r: State)
    requires WellFormed(s)
    ensures WellFormed(r)
    ensures s.held.Some? ==>
      var i := s.held.value;
      r.nodes == s.nodes[i := s.nodes[i].(opacity := "1")]
    ensures s.held.None? ==> r == s
    ensures r == s.(nodes := r.nodes)
  {
    SetOpacity(s, "1")
  }

  /**
   * `window.removeEventListener('resize', f)`: unregisters the listener that is the very
   * closure `f`, if any.
   */
  function RemoveEventListener(ls: seq<Listener>, closure: nat): (r: seq<Listener>)
    ensures forall l :: l in r <==> l in ls && l.closure != closure
    ensures (forall k :: 0 <= k < |ls| ==> ls[k].closure != closure) ==> r == ls
  {
    if |ls| == 0 then []
    else if ls[0].closure == closure then RemoveEventListener(ls[1..], closure)
    else [ls[0]] + RemoveEventListener(ls[1..], closure)
  }

  /**
   * `handle.destroy()` (src/index.js:97-104): detaches the held element if it is in the
   * document, asks to remove a resize listener, cancels the timer `resizeTimeout` names and
   * drops the held reference. The listener it asks to remove is a closure created on the
   * spot, so no registered listener is removed.
   */
  function Destroy(s: State): (r: State)
    requires WellFormed(s)
    ensures WellFormed(r)
    ensures r.held.None?
    ensures |r.nodes| == |s.nodes|
    ensures s.held.Some? ==> r.nodes[s.held.value] == s.nodes[s.held.value].(parent := None)
    ensures forall j :: 0 <= j < |s.nodes| && Some(j) != s.held ==> r.nodes[j] == s.nodes[j]
    ensures forall t :: t in r.timers <==> t in s.timers && Some(t.handle) != s.resizeTimeout
    ensures |r.timers| <= |s.timers|
    ensures r.listeners == s.listeners
    ensures r == s.(nodes := r.nodes, held := None, timers := r.timers, nextClosure := r.nextClosure)
  {
    var nodes :=
      if s.held.Some? && s.nodes[s.held.value].parent.Some? then
        s.nodes[s.held.value := s.nodes[s.held.value].(parent := None)]
      else s.nodes;
    var probe := s.nextClosure;
    s.(nodes := nodes,
       listeners := RemoveEventListener(s.listeners, probe),
       nextClosure := probe + 1,
       timers := ClearTimeout(s.timers, s.resizeTimeout),
       held := None)
  }

  /**
   * The teardown `destroy` evidently intends: as Destroy, except that the resize listener
   * registered by the `initElement` that created the overlay is the one unregistered.
   */
  function DestroyIntended(s: State): (r: State)
    requires WellFormed(s)
    ensures WellFormed(r)
    ensures r.held.None? && r.ownListener.None?
    ensures forall l :: l in r.listeners <==> l in s.listeners && Some(l.closure) != s.ownListener
    ensures r == Destroy(s).(listeners := r.listeners, ownListener := None)
  {
    var d := Destroy(s);
    match s.ownListener
    case None => d
    case Some(c) => d.(listeners := RemoveEventListener(s.listeners, c), ownListener := None)
  }

  /** What can happen to the page: a call through the API, or a host event. */
  datatype Event =
    | CallInit(overrides: Overrides)
    | CallHide
    | CallShow
    | CallUpdate
    | CallDestroy
    | BodyReady
    | DomContentLoaded
    | WindowResized(viewport: Viewport)
    | TimerElapsed(handle: nat)

  function Step(s: State, e: Event): (r: State)
    requires WellFormed(s)
    ensures WellFormed(r)
  {
    match e
    case CallInit(o) => Init(s, o).0
    case CallHide => Hide(s)
    case CallShow => Show(s)
    case CallUpdate => UpdateResolution(s)
    case CallDestroy => Destroy(s)
    case BodyReady => BodyParsed(s)
    case DomContentLoaded => ContentLoaded(s)
    case WindowResized(vp) => Resize(s, vp)
    case TimerElapsed(h) => FireTimer(s, h)
  }

  /** The state after a sequence of events. */
  function Run(s: State, es: seq<Event>): (r: State)
    requires WellFormed(s)
    ensures WellFormed(r)
    decreases |es|
  {
    if |es| == 0 then s else Run(Step(s, es[0]), es[1..])
  }
}
