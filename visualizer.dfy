/** The visualizer's lifecycle: the module-level globals `audioContext`,
    `analyser`, `dataArray` and `animationId`, the once-only set-up of the
    audio graph, the self-rescheduling draw callback and the play and pause
    handlers. The host's frame scheduler is abstracted as the set of frame
    requests that are still pending and a counter of the handles it gave out. */
module Visualizer {
  import opened BarLayout

  datatype Option<T> = None | Some(value: T)

  /** The `state` attribute of an audio context. */
  datatype ContextState = Suspended | Running | Closed

  /** How far the `try` block of `initAudioContext` gets: the context
      constructor throws (no Web Audio support), attaching the media element
      throws (it is already attached elsewhere), or the graph is built. */
  datatype InitOutcome = ContextThrows | SourceThrows | Built

  /** An analyser node; only its transform size matters here. */
  datatype Analyser = Analyser(fftSize: nat)

  /** The transform size the set-up assigns to the analyser. */
  const FftSize: nat := 128

  /** `frequencyBinCount` of an analyser node: half its transform size. */
  function FrequencyBinCount(a: Analyser): (n: nat)
    ensures 2 * n <= a.fftSize < 2 * n + 2
    ensures a.fftSize == FftSize ==> n == 64
  {
    a.fftSize / 2
  }

  /** The globals of the visualizer together with the host's frame scheduler.
      `animationId` is 0 while it is still undefined; the handles the host
      gives out are positive. */
  datatype Globals = Globals(
    audioContext: Option<ContextState>,
    analyser: Option<Analyser>,
    dataArray: Option<seq<byte>>,
    animationId: nat,
    pending: set<nat>,
    lastHandle: nat)

  /** The globals when the page has loaded: all undefined, nothing scheduled. */
  const Start: Globals := Globals(None, None, None, 0, {}, 0)

  /** The states the handlers can reach: an analyser only exists inside a
      context, carries the set-up's transform size and its bin buffer; a frame
      was only ever requested once there is an analyser; and the only request
      that can be pending is the one stored in `animationId`. */
  predicate WellFormed(g: Globals) {
    (g.analyser.Some? ==>
      g.audioContext.Some? && g.analyser.value.fftSize == FftSize &&
      g.dataArray.Some? && |g.dataArray.value| == FrequencyBinCount(g.analyser.value)) &&
    (g.analyser.None? ==> g.dataArray.None?) &&
    (g.animationId > 0 ==> g.analyser.Some?) &&
    g.pending <= {g.animationId} && 0 !in g.pending &&
    g.animationId <= g.lastHandle
  }

  /** At most one draw callback is outstanding at any time. */
  lemma AtMostOnePending(g: Globals)
    requires WellFormed(g)
    ensures |g.pending| <= 1
  {
    if g.pending != {} {
      assert g.pending == {g.animationId};
    }
  }

  /** `new Uint8Array(n)`: `n` zero bytes. */
  function Zeros(n: nat): (r: seq<byte>)
    ensures |r| == n && forall i :: 0 <= i < n ==> r[i] == 0
  {
    seq(n, _ => 0)
  }

  /** `getByteFrequencyData(dst)` with the analyser's current spectrum `src`:
      as many leading bytes as both hold are overwritten, the rest of `dst`
      is kept. */
  function CopyInto(dst: seq<byte>, src: seq<byte>): (r: seq<byte>)
    ensures |r| == |dst|
    ensures |src| >= |dst| ==> r == src[..|dst|]
    ensures |src| < |dst| ==> r[..|src|] == src && r[|src|..] == dst[|src|..]
  {
    if |src| >= |dst| then src[..|dst|]
    else src + dst[|src|..]
  }

  /** `animationId = requestAnimationFrame(drawVisualizer)`: the host hands
      out a fresh handle, which becomes pending. */
  function RequestFrame(g: Globals): (r: Globals)
    ensures r.animationId > g.lastHandle && r.lastHandle == r.animationId
    ensures r.pending == g.pending + {r.animationId}
    ensures r.audioContext == g.audioContext && r.analyser == g.analyser && r.dataArray == g.dataArray
  {
    var h := g.lastHandle + 1;
    g.(animationId := h, pending := g.pending + {h}, lastHandle := h)
  }

  /** `drawVisualizer` as it acts on the globals: nothing without an
      analyser; otherwise it schedules the next frame and refreshes the bins. */
  function DrawStep(g: Globals, spectrum: seq<byte>): (r: Globals)
    requires WellFormed(g) && g.pending == {}
    ensures WellFormed(r)
    ensures g.analyser.None? ==> r == g
    ensures g.analyser.Some? ==> r.pending == {r.animationId} && r.animationId > g.animationId
    ensures r.audioContext == g.audioContext && r.analyser == g.analyser
    ensures g.analyser.Some? ==> r.dataArray == Some(CopyInto(g.dataArray.value, spectrum))
  {
    if g.analyser.None? then g
    else RequestFrame(g).(dataArray := Some(CopyInto(g.dataArray.value, spectrum)))
  }

  /** `initAudioContext`: returns at once when a context exists; otherwise
      creates the context (whose initial state is `created`), then the source
      and the analyser, and starts drawing, unless a step throws. A throw is
      caught, and whatever was assigned before it stays assigned. */
  function InitStep(g: Globals, outcome: InitOutcome, created: ContextState, spectrum: seq<byte>): (r: Globals)
    requires WellFormed(g)
    ensures WellFormed(r)
    ensures g.audioContext.Some? ==> r == g
    ensures outcome == ContextThrows ==> r == g
    ensures g.audioContext.None? && outcome == SourceThrows ==>
      r == g.(audioContext := Some(created))
    ensures g.audioContext.None? && outcome == Built ==>
      r.audioContext == Some(created) && r.analyser == Some(Analyser(FftSize)) &&
      |r.dataArray.value| == 64 && |r.pending| == 1
    ensures g.audioContext.None? && outcome == Built ==>
      r.dataArray == Some(CopyInto(Zeros(64), spectrum))
  {
    if g.audioContext.Some? then g
    else
      match outcome
      case ContextThrows => g
      case SourceThrows => g.(audioContext := Some(created))
      case Built =>
        var a := Analyser(FftSize);
        DrawStep(g.(audioContext := Some(created), analyser := Some(a),
                    dataArray := Some(Zeros(FrequencyBinCount(a)))), spectrum)
  }

  /** The `play` handler: resumes a suspended context, otherwise tries the set-up. */
  function PlayStep(g: Globals, outcome: InitOutcome, created: ContextState, spectrum: seq<byte>): (r: Globals)
    requires WellFormed(g)
    ensures WellFormed(r)
    ensures g.audioContext == Some(Suspended) ==> r == g.(audioContext := Some(Running))
    ensures g.audioContext.Some? && g.audioContext.value != Suspended ==> r == g
    ensures g.audioContext.None? ==> r == InitStep(g, outcome, created, spectrum)
    ensures g.audioContext.Some? ==> r.pending == g.pending && r.animationId == g.animationId
  {
    if g.audioContext.Some? && g.audioContext.value == Suspended then
      g.(audioContext := Some(Running))
    else
      InitStep(g, outcome, created, spectrum)
  }

  /** The `pause` handler: cancels the frame `animationId` names when both
      the context and the handle are set, and leaves `animationId` as it is. */
  function PauseStep(g: Globals): (r: Globals)
    ensures r.animationId == g.animationId && r.pending <= g.pending
    ensures r.audioContext == g.audioContext && r.analyser == g.analyser
    ensures r.dataArray == g.dataArray && r.lastHandle == g.lastHandle
    ensures WellFormed(g) ==> WellFormed(r) && r.pending == {}
  {
    if g.audioContext.Some? && g.animationId != 0 then
      g.(pending := g.pending - {g.animationId})
    else
      g
  }

  /** Pausing twice is the same as pausing once. */
  lemma PauseIdempotent(g: Globals)
    ensures PauseStep(PauseStep(g)) == PauseStep(g)
  {
  }

  /** The host runs the pending draw callback, if there is one; the callback
      schedules its successor, so a running loop keeps one request pending. */
  function FrameStep(g: Globals, spectrum: seq<byte>): (r: Globals)
    requires WellFormed(g)
    ensures WellFormed(r)
    ensures g.pending == {} ==> r == g
    ensures g.pending != {} ==> |r.pending| == 1 && r.animationId > g.animationId
    ensures r.audioContext == g.audioContext && r.analyser == g.analyser
    ensures g.pending != {} ==> r.dataArray == Some(CopyInto(g.dataArray.value, spectrum))
  {
    if g.animationId in g.pending then
      DrawStep(g.(pending := g.pending - {g.animationId}), spectrum)
    else
      g
  }

  /** The host changes the state of an existing context (autoplay policy,
      closing); without a context nothing happens. */
  function ContextStep(g: Globals, s: ContextState): (r: Globals)
    requires WellFormed(g)
    ensures WellFormed(r)
    ensures r.audioContext.Some? <==> g.audioContext.Some?
    ensures r.analyser == g.analyser && r.pending == g.pending
  {
    if g.audioContext.Some? then g.(audioContext := Some(s)) else g
  }

  /** The events that drive the visualizer. */
  datatype Event =
    | Play(outcome: InitOutcome, created: ContextState, spectrum: seq<byte>)
    | Pause
    | Frame(spectrum: seq<byte>)
    | ContextChanged(state: ContextState)

  /** Hands each event to its handler: the `play` and `pause` listeners, the
      host running a pending frame, and the host changing the context's state.
      No event unsets the context or replaces a built analyser. */
  function Step(g: Globals, e: Event): (r: Globals)
    requires WellFormed(g)
    ensures WellFormed(r)
    ensures g.audioContext.Some? ==> r.audioContext.Some?
    ensures g.analyser.Some? ==> r.analyser == g.analyser
  {
    match e
    case Play(o, c, sp) => PlayStep(g, o, c, sp)
    case Pause => PauseStep(g)
    case Frame(sp) => FrameStep(g, sp)
    case ContextChanged(s) => ContextStep(g, s)
  }

  /** The globals after a sequence of events. */
  function Run(g: Globals, events: seq<Event>): (r: Globals)
    requires WellFormed(g)
    ensures WellFormed(r)
    decreases |events|
  {
    if events == [] then g else Run(Step(g, events[0]), events[1..])
  }

  /** Every reachable state is well formed; in particular at most one frame
      request is ever pending. */
  lemma ReachableWellFormed(events: seq<Event>)
    ensures WellFormed(Run(Start, events)) && |Run(Start, events).pending| <= 1
  {
    AtMostOnePending(Run(Start, events));
  }

  /** The audio graph is built at most once: once an analyser exists, no
      sequence of events replaces it or drops the context. */
  lemma {:induction false} GraphBuiltOnce(g: Globals, events: seq<Event>)
    requires WellFormed(g) && g.analyser.Some?
    ensures Run(g, events).analyser == g.analyser
    ensures Run(g, events).audioContext.Some?
    decreases |events|
  {
    if events != [] {
      var next := Step(g, events[0]);
      assert next.analyser == g.analyser;
      GraphBuiltOnce(next, events[1..]);
    }
  }

  /** Once `audioContext` is set, the set-up never runs again: a failure after
      the context was created leaves the visualizer inert for good. */
  lemma {:induction false} InertAfterSourceFailure(g: Globals, events: seq<Event>)
    requires WellFormed(g) && g.audioContext.Some? && g.analyser.None?
    ensures Run(g, events).analyser.None? && Run(g, events).pending == {}
    decreases |events|
  {
    if events != [] {
      var next := Step(g, events[0]);
      assert next.audioContext.Some? && next.analyser.None?;
      InertAfterSourceFailure(next, events[1..]);
    }
  }

  /** Once a context exists, a pause stops the drawing for good: `pause`
      cancels the pending frame, `play` only resumes the context or returns
      early from the set-up, so no later event schedules a frame again. */
  lemma {:induction false} NoRedrawAfterPause(g: Globals, events: seq<Event>)
    requires WellFormed(g) && g.audioContext.Some?
    ensures Run(PauseStep(g), events).pending == {}
    decreases |events|
  {
    StoppedStaysStopped(PauseStep(g), events);
  }

  lemma {:induction false} StoppedStaysStopped(g: Globals, events: seq<Event>)
    requires WellFormed(g) && g.audioContext.Some? && g.pending == {}
    ensures Run(g, events).pending == {} && Run(g, events).audioContext.Some?
    decreases |events|
  {
    if events != [] {
      var next := Step(g, events[0]);
      assert next.audioContext.Some? && next.pending == {};
      StoppedStaysStopped(next, events[1..]);
    }
  }

  /** The first `play` with a working platform builds the graph with 64 bins
      holding the first spectrum read, and leaves exactly one frame request
      pending: the next handle the host hands out. */
  lemma FirstPlayStartsDrawing(g: Globals, created: ContextState, spectrum: seq<byte>)
    requires WellFormed(g) && g.audioContext.None?
    ensures var r := PlayStep(g, Built, created, spectrum);
      r.analyser == Some(Analyser(128)) && |r.dataArray.value| == 64 &&
      r.dataArray == Some(CopyInto(Zeros(64), spectrum)) &&
      r.pending == {r.animationId} && r.animationId == g.lastHandle + 1
  {
  }

  /** When the context constructor itself throws, `audioContext` stays
      undefined, so the next `play` tries the set-up again and, if the
      platform now allows it, builds the graph. */
  lemma ConstructorFailureIsRetried(g: Globals, created: ContextState, created': ContextState,
                                    spectrum: seq<byte>, spectrum': seq<byte>)
    requires WellFormed(g) && g.audioContext.None?
    ensures PlayStep(g, ContextThrows, created, spectrum) == g
    ensures Run(g, [Play(ContextThrows, created, spectrum), Play(Built, created', spectrum')]).analyser
      == Some(Analyser(FftSize))
  {
    var events := [Play(ContextThrows, created, spectrum), Play(Built, created', spectrum')];
    var once := Step(g, events[0]);
    assert once == g;
    assert events[1..] == [events[1]];
    assert Run(once, events[1..]) == Run(Step(once, events[1]), []);
  }

  /** The visualizer as the page holds it: the globals, the host's frame
      scheduler and the canvas's backing size. */
  class Session {
    var audioContext: Option<ContextState>
    var analyser: Option<Analyser>
    var dataArray: Option<seq<byte>>
    var animationId: nat
    var pending: set<nat>
    var lastHandle: nat
    var canvasWidth: nat
    var canvasHeight: nat

    /** The globals part of the session. */
    function State(): Globals
      reads this
    {
      Globals(audioContext, analyser, dataArray, animationId, pending, lastHandle)
    }

    predicate Valid()
      reads this
    {
      WellFormed(State())
    }

    /** `createVisualizer`: a fresh canvas has the default 300 by 150 backing size. */
    constructor ()
      ensures Valid() && State() == Start
      ensures canvasWidth == 300 && canvasHeight == 150
    {
      audioContext, analyser, dataArray := None, None, None;
      animationId, pending, lastHandle := 0, {}, 0;
      canvasWidth, canvasHeight := 300, 150;
    }

    /** `drawVisualizer`: without an analyser it does nothing; otherwise it
        sizes the canvas to its container, requests the next frame, reads the
        spectrum into `dataArray` and returns the bars of this frame. */
    method Draw(offsetWidth: nat, offsetHeight: nat, spectrum: seq<byte>) returns (bars: seq<Bar>)
      requires Valid() && pending == {}
      modifies this
      ensures Valid() && State() == DrawStep(old(State()), spectrum)
      ensures old(analyser).None? ==>
        bars == [] && canvasWidth == old(canvasWidth) && canvasHeight == old(canvasHeight)
      ensures old(analyser).Some? ==>
        canvasWidth == offsetWidth && canvasHeight == offsetHeight &&
        bars == Layout(dataArray.value, offsetWidth, offsetHeight)
    {
      if analyser.None? {
        return [];
      }
      canvasWidth, canvasHeight := offsetWidth, offsetHeight;
      lastHandle := lastHandle + 1;
      animationId := lastHandle;
      pending := pending + {animationId};
      dataArray := Some(CopyInto(dataArray.value, spectrum));
      bars := LayoutBars(dataArray.value, canvasWidth, canvasHeight);
    }

    /** `initAudioContext`, with the platform's behaviour as `outcome`. */
    method InitAudioContext(outcome: InitOutcome, created: ContextState,
                            offsetWidth: nat, offsetHeight: nat, spectrum: seq<byte>)
      returns (bars: seq<Bar>)
      requires Valid()
      modifies this
      ensures Valid() && State() == InitStep(old(State()), outcome, created, spectrum)
      ensures old(audioContext).Some? || outcome != Built ==>
        bars == [] && canvasWidth == old(canvasWidth) && canvasHeight == old(canvasHeight)
      ensures old(audioContext).None? && outcome == Built ==>
        canvasWidth == offsetWidth && canvasHeight == offsetHeight &&
        bars == Layout(dataArray.value, offsetWidth, offsetHeight) && |bars| == 64
    {
      bars := [];
      if audioContext.Some? {
        return;
      }
      if outcome == ContextThrows {
        return;
      }
      audioContext := Some(created);
      if outcome == SourceThrows {
        return;
      }
      var a := Analyser(FftSize);
      analyser := Some(a);
      dataArray := Some(Zeros(FrequencyBinCount(a)));
      bars := Draw(offsetWidth, offsetHeight, spectrum);
    }

    /** The `play` handler. */
    method OnPlay(outcome: InitOutcome, created: ContextState,
                  offsetWidth: nat, offsetHeight: nat, spectrum: seq<byte>)
      returns (bars: seq<Bar>)
      requires Valid()
      modifies this
      ensures Valid() && State() == PlayStep(old(State()), outcome, created, spectrum)
      ensures old(audioContext).Some? ==>
        bars == [] && canvasWidth == old(canvasWidth) && canvasHeight == old(canvasHeight)
      ensures old(audioContext).None? && outcome != Built ==>
        bars == [] && canvasWidth == old(canvasWidth) && canvasHeight == old(canvasHeight)
      ensures old(audioContext).None? && outcome == Built ==>
        canvasWidth == offsetWidth && canvasHeight == offsetHeight &&
        bars == Layout(dataArray.value, offsetWidth, offsetHeight) && |bars| == 64
    {
      if audioContext.Some? && audioContext.value == Suspended {
        audioContext := Some(Running);
        bars := [];
      } else {
        bars := InitAudioContext(outcome, created, offsetWidth, offsetHeight, spectrum);
      }
    }

    /** The `pause` handler. */
    method OnPause()
      requires Valid()
      modifies this
      ensures Valid() && State() == PauseStep(old(State()))
      ensures pending == {} && animationId == old(animationId)
      ensures canvasWidth == old(canvasWidth) && canvasHeight == old(canvasHeight)
    {
      if audioContext.Some? && animationId != 0 {
        pending := pending - {animationId};
      }
    }

    /** The host runs the pending draw callback, if any. */
    method OnFrame(offsetWidth: nat, offsetHeight: nat, spectrum: seq<byte>) returns (bars: seq<Bar>)
      requires Valid()
      modifies this
      ensures Valid() && State() == FrameStep(old(State()), spectrum)
      ensures old(pending) == {} ==>
        bars == [] && canvasWidth == old(canvasWidth) && canvasHeight == old(canvasHeight)
      ensures old(pending) != {} ==>
        canvasWidth == offsetWidth && canvasHeight == offsetHeight &&
        bars == Layout(dataArray.value, offsetWidth, offsetHeight) && |bars| == 64
    {
      if animationId in pending {
        pending := pending - {animationId};
        bars := Draw(offsetWidth, offsetHeight, spectrum);
      } else {
        bars := [];
      }
    }

    /** The `resize` handler: the canvas takes its container's size; nothing
        else changes and nothing is drawn. */
    method OnResize(offsetWidth: nat, offsetHeight: nat)
      modifies this
      ensures canvasWidth == offsetWidth && canvasHeight == offsetHeight
      ensures State() == old(State())
    {
      canvasWidth, canvasHeight := offsetWidth, offsetHeight;
    }
  }
}
