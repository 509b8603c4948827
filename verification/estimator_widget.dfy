/**
  The estimator widget's state and its debounced recomputation.

  A setter re-renders the widget with the new input; that render still shows
  whatever `isCalculating` and `estimate` held before. Only afterwards does the
  effect run: it clears the previous timer, sets `isCalculating` and schedules a
  new timer whose closure holds the inputs of the render that scheduled it. When
  that timer fires it stores their price and clears `isCalculating`.

  Time and React's scheduling are abstracted away: the effect due after a render
  runs on an `EffectRun` event, and a pending timer may fire at any point between
  events, also before a due effect has run.
 */
module EstimatorWidget {
  import opened Wrappers
  import opened Pricing
  import PricingProperties

  datatype Widget = Widget(
    inputs: Inputs,
    isCalculating: bool,
    estimate: int,
    pending: Option<Inputs>,  // the inputs captured by the scheduled timer, if any
    effectDue: bool           // rendered with new inputs, effect not yet run
  )

  datatype Event =
    | SetService(service: string)
    | SetComplexity(complexity: int)
    | SetDevices(devices: int)
    | SetUrgency(urgency: string)
    | EffectRun
    | TimerFire

  /** A setter of one of the four inputs. */
  predicate IsSetter(e: Event) {
    e.SetService? || e.SetComplexity? || e.SetDevices? || e.SetUrgency?
  }

  /** The first render: defaults, not calculating, estimate 0, the mount effect due. */
  const FirstRender: Widget := Widget(Defaults, false, 0, None, true)

  /** What the price area shows: "..." (here `None`) while calculating, else the estimate. */
  function Display(w: Widget): (r: Option<int>)
    ensures r.None? <==> w.isCalculating
    ensures r.Some? ==> r.value == w.estimate
  {
    if w.isCalculating then None else Some(w.estimate)
  }

  /** The inputs after one event; only the setter's own field changes. */
  function ApplyInput(i: Inputs, e: Event): (r: Inputs)
    ensures e.SetService? ==> r.service == e.service
    ensures e.SetComplexity? ==> r.complexity == e.complexity
    ensures e.SetDevices? ==> r.devices == e.devices
    ensures e.SetUrgency? ==> r.urgency == e.urgency
    ensures !e.SetService? ==> r.service == i.service
    ensures !e.SetComplexity? ==> r.complexity == i.complexity
    ensures !e.SetDevices? ==> r.devices == i.devices
    ensures !e.SetUrgency? ==> r.urgency == i.urgency
  {
    match e
    case SetService(s) => i.(service := s)
    case SetComplexity(c) => i.(complexity := c)
    case SetDevices(d) => i.(devices := d)
    case SetUrgency(u) => i.(urgency := u)
    case EffectRun => i
    case TimerFire => i
  }

  /** The effect body: mark as calculating and replace any pending timer by one for the current inputs. */
  function RunEffect(w: Widget): (r: Widget)
    ensures r.isCalculating && r.pending == Some(w.inputs) && !r.effectDue
    ensures r.inputs == w.inputs && r.estimate == w.estimate
  {
    w.(isCalculating := true, pending := Some(w.inputs), effectDue := false)
  }

  /** The timer's callback: store the price of the inputs it captured and stop calculating. */
  function FireTimer(w: Widget, captured: Inputs): (r: Widget)
    ensures r.estimate == Price(captured) && !r.isCalculating && r.pending.None?
    ensures r.inputs == w.inputs && r.effectDue == w.effectDue
  {
    w.(estimate := Price(captured), isCalculating := false, pending := None)
  }

  /**
    One event. A setter given the value already held changes nothing (React keeps
    the state and the effect's dependencies are unchanged); otherwise it renders
    the new inputs and leaves the effect due. An effect run with no effect due,
    or a timer fire with no timer scheduled, cannot happen and changes nothing.
   */
  function Step(w: Widget, e: Event): (r: Widget)
    ensures r.inputs == ApplyInput(w.inputs, e)
    ensures IsSetter(e) && ApplyInput(w.inputs, e) == w.inputs ==> r == w
    ensures IsSetter(e) && ApplyInput(w.inputs, e) != w.inputs ==>
              r == w.(inputs := ApplyInput(w.inputs, e), effectDue := true)
    ensures e.EffectRun? && w.effectDue ==>
              r.isCalculating && r.pending == Some(w.inputs) && !r.effectDue && r.estimate == w.estimate
    ensures e.EffectRun? && !w.effectDue ==> r == w
    ensures !e.TimerFire? ==> r.estimate == w.estimate
    ensures e.TimerFire? && w.pending.Some? ==>
              !r.isCalculating && r.pending.None? && r.estimate == Price(w.pending.value)
              && r.effectDue == w.effectDue
    ensures e.TimerFire? && w.pending.None? ==> r == w
  {
    match e
    case EffectRun => if w.effectDue then RunEffect(w) else w
    case TimerFire =>
      (match w.pending
       case None => w
       case Some(captured) => FireTimer(w, captured))
    case _ =>
      var next := ApplyInput(w.inputs, e);
      if next == w.inputs then w else w.(inputs := next, effectDue := true)
  }

  /** A sequence of events, in order. */
  function Run(w: Widget, events: seq<Event>): Widget
    decreases |events|
  {
    if events == [] then w else Run(Step(w, events[0]), events[1..])
  }

  /** The inputs after a sequence of events, computed without any effect or timer. */
  function InputsAfter(i: Inputs, events: seq<Event>): Inputs
    decreases |events|
  {
    if events == [] then i else InputsAfter(ApplyInput(i, events[0]), events[1..])
  }

  /**
    The widget with no effect waiting to run: a timer is pending exactly while
    calculating, it holds the current inputs, and otherwise the stored estimate
    is the price of the current inputs.
   */
  predicate Settled(w: Widget) {
    && !w.effectDue
    && (w.pending.Some? ==> w.pending.value == w.inputs)
    && (!w.isCalculating ==> w.estimate == Price(w.inputs))
  }

  /**
    The invariant of every reachable state: a timer is pending exactly while
    calculating, and unless an effect is due the widget is settled.
   */
  predicate Consistent(w: Widget) {
    && (w.isCalculating <==> w.pending.Some?)
    && (!w.effectDue ==> Settled(w))
  }

  /** Before the mount effect runs the widget shows $0 and not the price of its defaults ($80). */
  lemma FirstPaintShowsZero()
    ensures Display(FirstRender) == Some(0)
    ensures Price(FirstRender.inputs) == 80
    ensures Consistent(FirstRender) && !Settled(FirstRender)
  {
  }

  /** The mount effect starts the calculation for the defaults. */
  lemma MountIsSettled()
    ensures var w := Step(FirstRender, EffectRun);
            Settled(w) && w.pending == Some(Defaults) && Display(w) == None
  {
  }

  /**
    The render after an input change keeps showing the previous figure: from a
    settled widget showing a price, a setter with a new value yields a widget
    that shows the same figure while its inputs have already changed.
   */
  lemma RenderBeforeEffectShowsPrevious(w: Widget, e: Event)
    requires Settled(w) && IsSetter(e) && ApplyInput(w.inputs, e) != w.inputs
    ensures var r := Step(w, e);
            && r.effectDue && !Settled(r)
            && Display(r) == Display(w)
            && r.inputs == ApplyInput(w.inputs, e)
  {
  }

  /**
    A case in point: once the defaults are shown ($80), choosing AI & Automation
    renders that service with $80 still on screen, though it prices at $288.
   */
  lemma StaleRenderExample()
    ensures var shown := Run(FirstRender, [EffectRun, TimerFire]);
            var clicked := Step(shown, SetService(AiAutomation));
            && Display(shown) == Some(80)
            && Display(clicked) == Some(80)
            && Price(clicked.inputs) == 288
  {
    var shown := Run(FirstRender, [EffectRun, TimerFire]);
    assert shown == Step(Step(FirstRender, EffectRun), TimerFire);
  }

  /** Every event keeps the invariant. */
  lemma StepKeepsConsistent(w: Widget, e: Event)
    requires Consistent(w)
    ensures Consistent(Step(w, e))
  {
  }

  /** Any run keeps the invariant, and the inputs are those the setters alone produce. */
  lemma {:induction false} RunKeepsConsistent(w: Widget, events: seq<Event>)
    requires Consistent(w)
    ensures Consistent(Run(w, events))
    ensures Run(w, events).inputs == InputsAfter(w.inputs, events)
    decreases |events|
  {
    if events != [] {
      StepKeepsConsistent(w, events[0]);
      RunKeepsConsistent(Step(w, events[0]), events[1..]);
    }
  }

  /**
    No stale price is shown once the effect of the latest change has run: the
    displayed figure, when there is one, prices the current inputs.
   */
  lemma NoStalePriceShown(events: seq<Event>)
    ensures var w := Run(FirstRender, events);
            !w.effectDue && Display(w).Some? ==> Display(w) == Some(Price(w.inputs))
  {
    RunKeepsConsistent(FirstRender, events);
  }

  /**
    Last write wins: whatever happened before, once the due effect has run and
    its timer fires, the widget shows the price of the most recent inputs.
   */
  lemma LastWriteWins(events: seq<Event>)
    ensures var w := Run(FirstRender, events + [EffectRun, TimerFire]);
            && !w.isCalculating
            && Display(w) == Some(Price(InputsAfter(Defaults, events)))
  {
    RunAppend(FirstRender, events, [EffectRun, TimerFire]);
    RunKeepsConsistent(FirstRender, events);
    var before := Run(FirstRender, events);
    assert Run(before, [EffectRun, TimerFire]) == Step(Step(before, EffectRun), TimerFire);
  }

  lemma {:induction false} RunAppend(w: Widget, first: seq<Event>, second: seq<Event>)
    ensures Run(w, first + second) == Run(Run(w, first), second)
    decreases |first|
  {
    if first != [] {
      assert (first + second)[0] == first[0];
      assert (first + second)[1..] == first[1..] + second;
      RunAppend(Step(w, first[0]), first[1..], second);
    } else {
      assert first + second == second;
    }
  }

  /** An event the controls can produce: one of the four services, a level 1..4, a count 1..15, the two urgencies. */
  predicate FromControls(e: Event) {
    match e
    case SetService(s) => s in ServiceIds
    case SetComplexity(c) => MinComplexity <= c <= MaxComplexity
    case SetDevices(d) => MinDevices <= d <= MaxDevices
    case SetUrgency(u) => u == Normal || u == Emergency
    case EffectRun => true
    case TimerFire => true
  }

  /** Driven only by its controls, the widget's inputs stay valid. */
  lemma {:induction false} ControlsKeepInputsValid(i: Inputs, events: seq<Event>)
    requires Valid(i)
    requires forall n :: 0 <= n < |events| ==> FromControls(events[n])
    ensures Valid(InputsAfter(i, events))
    decreases |events|
  {
    if events != [] {
      assert FromControls(events[0]);
      ControlsKeepInputsValid(ApplyInput(i, events[0]), events[1..]);
    }
  }

  /**
    Driven only by its controls, the widget never shows a figure below the $50
    floor once the effect of the latest change has run (the first render, before
    the mount effect, shows $0).
   */
  lemma ShownEstimateAtLeastFloor(events: seq<Event>)
    requires forall n :: 0 <= n < |events| ==> FromControls(events[n])
    ensures var w := Run(FirstRender, events);
            !w.effectDue && Display(w).Some? ==> Display(w).value >= FallbackRate
  {
    var w := Run(FirstRender, events);
    RunKeepsConsistent(FirstRender, events);
    assert Valid(Defaults);
    ControlsKeepInputsValid(Defaults, events);
    assert w.inputs == InputsAfter(Defaults, events);
    assert Valid(w.inputs);
    SettledAtLeastFloor(w);
  }

  /** A consistent widget with complexity and devices from 1 up shows no figure below $50 once settled. */
  lemma SettledAtLeastFloor(w: Widget)
    requires Consistent(w) && w.inputs.complexity >= MinComplexity && w.inputs.devices >= MinDevices
    ensures !w.effectDue && Display(w).Some? ==> Display(w).value >= FallbackRate
  {
    PricingProperties.PriceAtLeastBase(w.inputs);
  }
}
