/** A model of the battery charge-threshold coupling of librem-control.

    Two sliders hold the charge START threshold and the charge END threshold
    (percent, range 0..100, step 1).  Each slider has a `value-changed`
    handler; the handlers write the other slider (and the start handler its
    own slider) through the toolkit's set-value call, which clamps the value
    to the slider's range and emits `value-changed` when, and only when, the
    stored value changes.  An emission on a slider whose emission is already
    running is not nested: it restarts that emission after the running
    handler returns.  The class `Sliders` runs that cascade step by step;
    the functions `AfterStartChanged`, `AfterEndChanged`, `AfterSetStart`
    and `AfterSetEnd` give its outcome in closed form and state what the
    coupling promises. */
module LibremControl {

  // Range of both sliders, as declared when they are created.
  const SliderMin := 0
  const SliderMax := 100

  // Range the start handler forces the start threshold into.
  const MinStart := 10
  const MaxStart := 99

  // Values the sliders are given before their handlers are connected.
  const InitialStart := 40
  const InitialEnd := 90

  /** The values shown by the two sliders. */
  datatype Thresholds = Thresholds(start: int, end: int)

  /** Both values lie in the sliders' declared range. */
  predicate InSliderRange(t: Thresholds) {
    SliderMin <= t.start <= SliderMax && SliderMin <= t.end <= SliderMax
  }

  /** The coupling the handlers maintain between user edits: the start
      threshold lies in [MinStart, MaxStart] and is strictly below the end
      threshold, which stays within the slider's range. */
  predicate Coupled(t: Thresholds) {
    MinStart <= t.start < t.end <= SliderMax
  }

  function Max(a: int, b: int): (r: int)
    ensures r >= a && r >= b && (r == a || r == b)
  {
    if a < b then b else a
  }

  /** `v` forced into [lo, hi]. */
  function Clamp(v: int, lo: int, hi: int): (r: int)
    requires lo <= hi
    ensures lo <= r <= hi
    ensures lo <= v <= hi ==> r == v
    ensures v < lo ==> r == lo
    ensures v > hi ==> r == hi
  {
    if v < lo then lo else if v > hi then hi else v
  }

  /** The slider values when the application has built its window. */
  function Initial(): (t: Thresholds)
    ensures InSliderRange(t) && Coupled(t)
    ensures t.start == InitialStart && t.end == InitialEnd
  {
    Thresholds(InitialStart, InitialEnd)
  }

  /** Outcome of the start handler's emission, restarts and the end
      handler it triggers included. */
  function AfterStartChanged(t: Thresholds): (r: Thresholds)
    // the start value is forced into [MinStart, MaxStart] ...
    ensures MinStart <= r.start <= MaxStart
    ensures t.start < MinStart ==> r.start == MinStart
    ensures t.start > MaxStart ==> r.start == MaxStart
    // ... and left alone when it already lies there
    ensures MinStart <= t.start <= MaxStart ==> r.start == t.start
    // the end value ends above the start value ...
    ensures r.start < r.end
    // ... is only ever raised, and then to exactly start + 1 ...
    ensures t.end <= r.end
    ensures r.end != t.end ==> r.end == r.start + 1
    // ... and is left alone when start + 1 <= end already holds
    ensures r.start + 1 <= t.end ==> r.end == t.end
    ensures InSliderRange(t) ==> InSliderRange(r) && Coupled(r)
  {
    var start := Clamp(t.start, MinStart, MaxStart);
    Thresholds(start, Max(t.end, start + 1))
  }

  /** Outcome of the toolkit's set-value call on the start slider: the value
      is clamped to the slider range and, if that changes what the slider
      holds, the start handler runs. */
  function AfterSetStart(t: Thresholds, v: int): (r: Thresholds)
    requires InSliderRange(t)
    ensures InSliderRange(r)
    // setting the value the slider already holds emits nothing
    ensures Clamp(v, SliderMin, SliderMax) == t.start ==> r == t
    // otherwise the start value ends as v forced into [MinStart, MaxStart]
    ensures Clamp(v, SliderMin, SliderMax) != t.start ==>
              r.start == Clamp(v, MinStart, MaxStart) && Coupled(r)
    ensures t.end <= r.end
    ensures r.end != t.end ==> r.end == r.start + 1
    ensures Coupled(t) ==> Coupled(r)
  {
    var v' := Clamp(v, SliderMin, SliderMax);
    if v' == t.start then t else AfterStartChanged(t.(start := v'))
  }

  /** Outcome of the end handler's emission when no other emission is in
      progress, the start handler it triggers included. */
  function AfterEndChanged(t: Thresholds): (r: Thresholds)
    requires InSliderRange(t)
    ensures InSliderRange(r)
    // when end - 1 is not below start nothing changes
    ensures t.start <= t.end - 1 ==> r == t
    // otherwise the start value is lowered to end - 1, or to MinStart
    // when end - 1 is below it ...
    ensures t.end - 1 < t.start && 0 < t.start ==>
              r.start == Max(t.end - 1, MinStart) && Coupled(r)
    // ... which never raises a start value that lies in [MinStart, MaxStart]
    ensures MinStart <= t.start ==> r.start <= t.start
    // the end value only moves when the start handler lifts it above MinStart
    ensures r.end != t.end ==> t.end <= MinStart && r.end == MinStart + 1
    ensures Coupled(t) ==> r == t
  {
    if t.end - 1 < t.start then AfterSetStart(t, t.end - 1) else t
  }

  /** Outcome of the toolkit's set-value call on the end slider. */
  function AfterSetEnd(t: Thresholds, v: int): (r: Thresholds)
    requires InSliderRange(t)
    ensures InSliderRange(r)
    ensures Clamp(v, SliderMin, SliderMax) == t.end ==> r == t
    // a new end value above start is simply stored
    ensures Clamp(v, SliderMin, SliderMax) != t.end && t.start < Clamp(v, SliderMin, SliderMax) ==>
              r == t.(end := Clamp(v, SliderMin, SliderMax))
    // a new end value at or below a coupled start pushes the start down
    ensures Coupled(t) && Clamp(v, SliderMin, SliderMax) <= t.start ==>
              r.start == Max(Clamp(v, SliderMin, SliderMax) - 1, MinStart) &&
              r.end == Max(Clamp(v, SliderMin, SliderMax), MinStart + 1)
    ensures Coupled(t) ==> Coupled(r)
  {
    var v' := Clamp(v, SliderMin, SliderMax);
    if v' == t.end then t else AfterEndChanged(t.(end := v'))
  }

  /** Outcome of the end handler while the start slider's own emission is
      still running: its set of the start slider then only stores the value
      and leaves the start handler to be re-run later. */
  function AfterEndChangedStartBusy(t: Thresholds): (r: Thresholds)
    requires InSliderRange(t)
    ensures InSliderRange(r)
    ensures r.end == t.end
    // when end - 1 is not below start nothing changes
    ensures t.start <= t.end - 1 ==> r == t
    // otherwise start is lowered to end - 1, or to 0 when end is 0
    ensures t.end - 1 < t.start ==> r.start == Max(t.end - 1, SliderMin) && r.start <= t.start
  {
    if t.end - 1 < t.start then t.(start := Clamp(t.end - 1, SliderMin, SliderMax)) else t
  }

  /** Running either handler again on the state it produced changes
      nothing; this is what makes the toolkit's restarted emissions
      harmless. */
  lemma HandlersSettle(t: Thresholds)
    requires InSliderRange(t)
    ensures AfterStartChanged(AfterStartChanged(t)) == AfterStartChanged(t)
    ensures AfterEndChanged(AfterEndChanged(t)) == AfterEndChanged(t)
    ensures AfterEndChangedStartBusy(AfterEndChangedStartBusy(t)) == AfterEndChangedStartBusy(t)
  {
  }

  /** The two sliders, their `value-changed` handlers, and the toolkit's
      bookkeeping of emissions in progress.

      The toolkit emits `value-changed` without recursion on the same
      slider: a set on a slider whose emission is still running only stores
      the value and marks that emission for a restart, which re-runs the
      handler once the current run has returned.  A set on the other slider
      runs that slider's handler at once. */
  class Sliders {
    var start: int
    var end: int
    var startEmitting: bool
    var startRestart: bool
    var endEmitting: bool
    var endRestart: bool

    /** The slider widgets never hold a value outside their range, and a
        restart is only ever pending for an emission in progress. */
    predicate Valid()
      reads this
    {
      InSliderRange(Current()) &&
      (startRestart ==> startEmitting) && (endRestart ==> endEmitting)
    }

    /** No emission is in progress: the state in which the user acts. */
    predicate Idle()
      reads this
    {
      !startEmitting && !endEmitting
    }

    function Current(): (t: Thresholds)
      reads this
    {
      Thresholds(start, end)
    }

    /** Number of sliders whose emission is not in progress; it drops each
        time an emission starts, which bounds the cascade. */
    function FreeSliders(): (n: nat)
      reads this
      ensures n <= 2
      ensures n == 2 <==> Idle()
    {
      (if startEmitting then 0 else 1) + (if endEmitting then 0 else 1)
    }

    /** Building the window: each slider gets its initial value before its
        handler is connected, so no handler runs. */
    constructor ()
      ensures Valid() && Idle() && Coupled(Current())
      ensures Current() == Initial()
    {
      start := InitialStart;
      end := InitialEnd;
      startEmitting, startRestart := false, false;
      endEmitting, endRestart := false, false;
    }

    /** The toolkit's set-value call on the start slider, used both by the
        handlers and for a user moving the start slider. */
    method SetStartValue(v: int)
      requires Valid()
      modifies this
      ensures Valid()
      ensures startEmitting == old(startEmitting) && endEmitting == old(endEmitting)
      ensures startRestart == (old(startRestart) || (startEmitting && start != old(start)))
      ensures endRestart == (old(endRestart) || (endEmitting && end != old(end)))
      // during the start slider's own emission the value is only stored ...
      ensures startEmitting ==> Current() == old(Current()).(start := Clamp(v, SliderMin, SliderMax))
      // ... otherwise the start handler runs to completion
      ensures !startEmitting ==> Current() == AfterSetStart(old(Current()), v)
      decreases FreeSliders(), if startEmitting then 0 else 2
    {
      var v' := Clamp(v, SliderMin, SliderMax);
      if v' != start {
        start := v';
        if startEmitting {
          startRestart := true;
        } else {
          EmitStartChanged();
        }
      }
    }

    /** The toolkit's set-value call on the end slider, used both by the
        handlers and for a user moving the end slider. */
    method SetEndValue(v: int)
      requires Valid()
      modifies this
      ensures Valid()
      ensures startEmitting == old(startEmitting) && endEmitting == old(endEmitting)
      ensures startRestart == (old(startRestart) || (startEmitting && start != old(start)))
      ensures endRestart == (old(endRestart) || (endEmitting && end != old(end)))
      // during the end slider's own emission the value is only stored ...
      ensures endEmitting ==> Current() == old(Current()).(end := Clamp(v, SliderMin, SliderMax))
      // ... otherwise the end handler runs to completion
      ensures !endEmitting && !startEmitting ==> Current() == AfterSetEnd(old(Current()), v)
      ensures !endEmitting && startEmitting ==>
                Current() == if Clamp(v, SliderMin, SliderMax) == old(end) then old(Current())
                             else AfterEndChangedStartBusy(old(Current()).(end := Clamp(v, SliderMin, SliderMax)))
      decreases FreeSliders(), if endEmitting then 0 else 2
    {
      var v' := Clamp(v, SliderMin, SliderMax);
      if v' != end {
        end := v';
        if endEmitting {
          endRestart := true;
        } else {
          EmitEndChanged();
        }
      }
    }

    /** The toolkit's emission of `value-changed` on the start slider: the
        handler runs, and runs again for as long as a set made during the
        run asked for a restart. */
    method EmitStartChanged()
      requires Valid() && !startEmitting
      modifies this
      ensures Valid() && !startEmitting && endEmitting == old(endEmitting)
      ensures !startRestart
      ensures endRestart == (old(endRestart) || (endEmitting && end != old(end)))
      ensures Current() == AfterStartChanged(old(Current()))
      decreases FreeSliders(), 1
    {
      startEmitting, startRestart := true, true;
      while startRestart
        invariant Valid() && startEmitting && endEmitting == old(endEmitting)
        invariant Current() == old(Current()) || Current() == AfterStartChanged(old(Current()))
        invariant !startRestart ==> Current() == AfterStartChanged(old(Current()))
        invariant endRestart == (old(endRestart) || (endEmitting && end != old(end)))
        decreases (if startRestart then 1 else 0) + (if MinStart <= start <= MaxStart then 0 else 1)
      {
        startRestart := false;
        HandlersSettle(old(Current()));
        OnStartChanged();
      }
      startEmitting := false;
    }

    /** The toolkit's emission of `value-changed` on the end slider. */
    method EmitEndChanged()
      requires Valid() && !endEmitting
      modifies this
      ensures Valid() && !endEmitting && startEmitting == old(startEmitting)
      ensures !endRestart
      ensures startRestart == (old(startRestart) || (startEmitting && start != old(start)))
      ensures !startEmitting ==> Current() == AfterEndChanged(old(Current()))
      ensures startEmitting ==> Current() == AfterEndChangedStartBusy(old(Current()))
      decreases FreeSliders(), 1
    {
      ghost var target := if startEmitting then AfterEndChangedStartBusy(Current())
                          else AfterEndChanged(Current());
      endEmitting, endRestart := true, true;
      while endRestart
        invariant Valid() && endEmitting && startEmitting == old(startEmitting)
        invariant Current() == old(Current()) || Current() == target
        invariant !endRestart ==> Current() == target
        invariant startRestart == (old(startRestart) || (startEmitting && start != old(start)))
        decreases (if endRestart then 1 else 0) + (if Current() == target then 0 else 1)
      {
        endRestart := false;
        HandlersSettle(old(Current()));
        OnEndChanged();
      }
      endEmitting := false;
    }

    /** The start slider's `value-changed` handler.  Its own sets of the
        start slider only store the value; the end value it read first is
        therefore still current when it compares against it. */
    method OnStartChanged()
      requires Valid() && startEmitting && !startRestart
      modifies this
      ensures Valid()
      ensures startEmitting == old(startEmitting) && endEmitting == old(endEmitting)
      ensures startRestart == (start != old(start))
      ensures endRestart == (old(endRestart) || (endEmitting && end != old(end)))
      ensures Current() == AfterStartChanged(old(Current()))
      decreases FreeSliders(), 3
    {
      var endVal := end;
      var startVal := start;
      if startVal < MinStart {
        startVal := MinStart;
        SetStartValue(startVal);
      }
      if startVal > MaxStart {
        startVal := MaxStart;
        SetStartValue(startVal);
      }
      startVal := startVal + 1;
      if startVal > endVal {
        SetEndValue(startVal);
      }
    }

    /** The end slider's `value-changed` handler. */
    method OnEndChanged()
      requires Valid() && endEmitting && !endRestart
      modifies this
      ensures Valid()
      ensures startEmitting == old(startEmitting) && endEmitting == old(endEmitting)
      ensures startRestart == (old(startRestart) || (startEmitting && start != old(start)))
      ensures endRestart == (end != old(end))
      ensures !startEmitting ==> Current() == AfterEndChanged(old(Current()))
      ensures startEmitting ==> Current() == AfterEndChangedStartBusy(old(Current()))
      decreases FreeSliders(), 3
    {
      var startVal := start;
      var endVal := end;
      endVal := endVal - 1;
      if endVal < startVal {
        SetStartValue(endVal);
      }
    }
  }

  /** The order of events when the start handler has to clamp: the set at
      the clamp only stores the clamped value, so the end value read first
      is still current; the set of the end slider then raises end to
      start + 1 (its handler sees nothing to do); and the restarted run of
      the start handler changes nothing. */
  lemma StartClampOrder(t: Thresholds)
    requires InSliderRange(t)
    requires t.start < MinStart || MaxStart < t.start
    ensures var c := Clamp(t.start, MinStart, MaxStart);
            var stored := t.(start := c);
            var raised := if c + 1 > t.end
                          then AfterEndChangedStartBusy(stored.(end := c + 1))
                          else stored;
            raised == Thresholds(c, Max(t.end, c + 1)) &&
            raised == AfterStartChanged(t) &&
            AfterStartChanged(raised) == raised
  {
  }

  /** Worked examples of the coupling. */
  lemma Examples()
    // the end slider dragged to 5 from start-up: start 10, end 11
    ensures AfterSetEnd(Initial(), 5) == Thresholds(10, 11)
    // start raised to 99 below an end of 100: end stays
    ensures AfterSetStart(Thresholds(90, 100), 99) == Thresholds(99, 100)
    // end lowered to 40 below a start of 50: start follows to 39
    ensures AfterSetEnd(Thresholds(50, 60), 40) == Thresholds(39, 40)
    // start dragged to 0: forced back to 10
    ensures AfterSetStart(Initial(), 0) == Thresholds(10, 90)
    // start dragged to 100: forced back to 99, end pushed to 100
    ensures AfterSetStart(Initial(), 100) == Thresholds(99, 100)
  {
  }

  /** A user moving one of the two sliders to a value. */
  datatype Edit = MoveStart(value: int) | MoveEnd(value: int)

  function AfterEdit(t: Thresholds, e: Edit): (r: Thresholds)
    requires InSliderRange(t)
    ensures InSliderRange(r)
    ensures Coupled(t) ==> Coupled(r)
  {
    match e
    case MoveStart(v) => AfterSetStart(t, v)
    case MoveEnd(v) => AfterSetEnd(t, v)
  }

  /** The slider values after the user's edits, applied in order. */
  function Run(t: Thresholds, edits: seq<Edit>): (r: Thresholds)
    requires InSliderRange(t)
    ensures InSliderRange(r)
    decreases |edits|
  {
    if edits == [] then t else Run(AfterEdit(t, edits[0]), edits[1..])
  }

  /** Every sequence of user edits from a coupled state ends coupled. */
  lemma {:induction false} RunKeepsCoupled(t: Thresholds, edits: seq<Edit>)
    requires InSliderRange(t) && Coupled(t)
    ensures Coupled(Run(t, edits))
    decreases |edits|
  {
    if edits != [] {
      RunKeepsCoupled(AfterEdit(t, edits[0]), edits[1..]);
    }
  }

  /** Whatever the user does after start-up, the sliders stay coupled. */
  lemma ReachableCoupled(edits: seq<Edit>)
    ensures Coupled(Run(Initial(), edits))
  {
    RunKeepsCoupled(Initial(), edits);
  }
}
