/** The automatic blink timer (app/features/animation/AutoBlink.ts), with
    the durations of app/constants/blink.ts. The expression manager is
    modelled by the last `blink` weight written to it. */
module AutoBlink {

  import opened Options
  import opened Numbers

  /** Seconds the eyes stay closed during a blink. */
  const CloseDuration: real := 0.12
  /** Seconds the eyes stay open between blinks. */
  const OpenDuration: real := 5.0

  /** Blink weights written to the expression manager. */
  const ClosedWeight: real := 1.0
  const OpenWeight: real := 0.0

  /** The timer's observable state. */
  datatype Blink = Blink(remainingTime: real, isOpen: bool, isEnabled: bool, lastWeight: Option<real>)

  /** What `getBlinkState` reports. */
  datatype BlinkState = BlinkState(isOpen: bool, isEnabled: bool)

  const Initial: Blink := Blink(OpenDuration, true, true, None)

  /** The effect of one `update(deltaTime)` call. */
  function Step(s: Blink, hasManager: bool, dt: real): Blink
  {
    if !s.isEnabled || !hasManager then s
    else if s.remainingTime > 0.0 then s.(remainingTime := s.remainingTime - dt)
    else if s.isOpen then s.(isOpen := false, remainingTime := CloseDuration, lastWeight := Some(ClosedWeight))
    else s.(isOpen := true, remainingTime := OpenDuration, lastWeight := Some(OpenWeight))
  }

  /** Successive `update` calls with the frame deltas `dts`. */
  function Run(s: Blink, hasManager: bool, dts: seq<real>): Blink
    decreases |dts|
  {
    if dts == [] then s else Run(Step(s, hasManager, dts[0]), hasManager, dts[1..])
  }

  /** The eyes are shut exactly when the last weight written is 1; only the
      two weights are ever written, and nothing is written without a manager. */
  ghost predicate Consistent(s: Blink, hasManager: bool)
  {
    (!s.isOpen <==> s.lastWeight == Some(ClosedWeight)) &&
    (s.lastWeight.Some? ==> s.lastWeight.value == ClosedWeight || s.lastWeight.value == OpenWeight) &&
    (!hasManager ==> s.lastWeight == None)
  }

  lemma {:induction false} RunKeepsConsistent(s: Blink, hasManager: bool, dts: seq<real>)
    requires Consistent(s, hasManager)
    ensures Consistent(Run(s, hasManager, dts), hasManager)
    decreases |dts|
  {
    if dts != [] {
      RunKeepsConsistent(Step(s, hasManager, dts[0]), hasManager, dts[1..]);
    }
  }

  /** While disabled, any number of updates leaves everything as it was. */
  lemma {:induction false} DisabledRunIsIdle(s: Blink, hasManager: bool, dts: seq<real>)
    requires !s.isEnabled
    ensures Run(s, hasManager, dts) == s
  {
    if dts != [] {
      DisabledRunIsIdle(s, hasManager, dts[1..]);
    }
  }

  /** While less time than `remainingTime` has elapsed, updates only count
      down: the eyes neither open nor close and nothing is written. */
  lemma {:induction false} CountdownHoldsPhase(s: Blink, hasManager: bool, dts: seq<real>)
    requires s.isEnabled && hasManager
    requires forall i :: 0 <= i < |dts| ==> dts[i] >= 0.0
    requires Sum(dts) < s.remainingTime
    ensures Run(s, hasManager, dts) == s.(remainingTime := s.remainingTime - Sum(dts))
    decreases |dts|
  {
    if dts != [] {
      SumNonNegative(dts[1..]);
      var next := Step(s, hasManager, dts[0]);
      assert next == s.(remainingTime := s.remainingTime - dts[0]);
      CountdownHoldsPhase(next, hasManager, dts[1..]);
    }
  }

  lemma {:induction false} SumNonNegative(dts: seq<real>)
    requires forall i :: 0 <= i < |dts| ==> dts[i] >= 0.0
    ensures Sum(dts) >= 0.0
  {
    if dts != [] {
      SumNonNegative(dts[1..]);
    }
  }

  /** With non-negative frame deltas the countdown never exceeds the open duration. */
  lemma {:induction false} RemainingTimeBounded(s: Blink, hasManager: bool, dts: seq<real>)
    requires s.remainingTime <= OpenDuration
    requires forall i :: 0 <= i < |dts| ==> dts[i] >= 0.0
    ensures Run(s, hasManager, dts).remainingTime <= OpenDuration
    decreases |dts|
  {
    if dts != [] {
      RemainingTimeBounded(Step(s, hasManager, dts[0]), hasManager, dts[1..]);
    }
  }

  /** One full blink: an open, enabled eye whose countdown has run out
      closes on the next update and reopens on the first update after the
      close duration has elapsed. */
  lemma BlinkCycle(s: Blink, dt: real, dts: seq<real>, last: real)
    requires s.isEnabled && s.isOpen && s.remainingTime <= 0.0
    requires forall i :: 0 <= i < |dts| ==> dts[i] >= 0.0
    requires Sum(dts) >= CloseDuration && Sum(dts) - dts[|dts| - 1] < CloseDuration
    ensures var shut := Step(s, true, dt);
      !shut.isOpen && shut.lastWeight == Some(ClosedWeight) && shut.remainingTime == CloseDuration
    ensures var counted := Run(Step(s, true, dt), true, dts);
      !counted.isOpen && counted.remainingTime <= 0.0 &&
      Step(counted, true, last) == counted.(isOpen := true, remainingTime := OpenDuration, lastWeight := Some(OpenWeight))
  {
    var shut := Step(s, true, dt);
    var n := |dts| - 1;
    SumSplit(dts[..n], [dts[n]]);
    assert dts[..n] + [dts[n]] == dts;
    assert Sum([dts[n]]) == dts[n];
    CountdownHoldsPhase(shut, true, dts[..n]);
    RunAppend(shut, true, dts[..n], [dts[n]]);
  }

  lemma {:induction false} SumSplit(a: seq<real>, b: seq<real>)
    ensures Sum(a + b) == Sum(a) + Sum(b)
  {
    if a != [] {
      assert (a + b)[1..] == a[1..] + b;
      SumSplit(a[1..], b);
    } else {
      assert a + b == b;
    }
  }

  lemma {:induction false} RunAppend(s: Blink, hasManager: bool, a: seq<real>, b: seq<real>)
    ensures Run(s, hasManager, a + b) == Run(Run(s, hasManager, a), hasManager, b)
    decreases |a|
  {
    if a != [] {
      assert (a + b)[1..] == a[1..] + b;
      RunAppend(Step(s, hasManager, a[0]), hasManager, a[1..], b);
    } else {
      assert a + b == b;
    }
  }

  /** The `AutoBlink` object. */
  class AutoBlink {
    const hasManager: bool
    var remainingTime: real
    var isOpen: bool
    var isEnabled: bool
    var lastWeight: Option<real>

    function State(): Blink
      reads this
    {
      Blink(remainingTime, isOpen, isEnabled, lastWeight)
    }

    ghost predicate Valid()
      reads this
    {
      Consistent(State(), hasManager)
    }

    /** A new timer is open and enabled, with the full open duration to run. */
    constructor (hasManager: bool)
      ensures Valid() && this.hasManager == hasManager
      ensures State() == Initial
    {
      this.hasManager := hasManager;
      remainingTime := OpenDuration;
      isOpen := true;
      isEnabled := true;
      lastWeight := None;
    }

    /** `update(deltaTime)`. */
    method Update(deltaTime: real)
      requires Valid()
      modifies this
      ensures Valid()
      ensures State() == Step(old(State()), hasManager, deltaTime)
    {
      if !isEnabled || !hasManager {
        return;
      }
      if remainingTime > 0.0 {
        remainingTime := remainingTime - deltaTime;
        return;
      }
      if isOpen {
        Close();
      } else {
        Open();
      }
    }

    /** `disable`: stop blinking and force the eyes open; the countdown is kept. */
    method Disable()
      requires Valid()
      modifies this
      ensures Valid()
      ensures !isEnabled && isOpen && remainingTime == old(remainingTime)
      ensures lastWeight == if hasManager then Some(OpenWeight) else old(lastWeight)
    {
      isEnabled := false;
      if hasManager {
        lastWeight := Some(OpenWeight);
      }
      isOpen := true;
    }

    /** `enable`: resume blinking with a fresh open countdown; the eye state is kept. */
    method Enable()
      requires Valid()
      modifies this
      ensures Valid()
      ensures isEnabled && remainingTime == OpenDuration
      ensures isOpen == old(isOpen) && lastWeight == old(lastWeight)
    {
      isEnabled := true;
      remainingTime := OpenDuration;
    }

    method Close()
      requires hasManager
      modifies this
      ensures !isOpen && remainingTime == CloseDuration && lastWeight == Some(ClosedWeight)
      ensures isEnabled == old(isEnabled)
    {
      isOpen := false;
      remainingTime := CloseDuration;
      lastWeight := Some(ClosedWeight);
    }

    method Open()
      requires hasManager
      modifies this
      ensures isOpen && remainingTime == OpenDuration && lastWeight == Some(OpenWeight)
      ensures isEnabled == old(isEnabled)
    {
      isOpen := true;
      remainingTime := OpenDuration;
      lastWeight := Some(OpenWeight);
    }

    /** `getBlinkState`: reports the two flags and changes nothing. */
    method GetBlinkState() returns (st: BlinkState)
      ensures st.isOpen == isOpen && st.isEnabled == isEnabled
    {
      st := BlinkState(isOpen, isEnabled);
    }
  }
}
