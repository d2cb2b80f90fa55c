/** The frame loop (app/hooks/useAnimationFrame.ts): each animation frame
    passes the seconds since the previous frame to the callback. Frame
    timestamps arrive in milliseconds as inputs. */
module AnimationFrame {

  import opened Options
  import opened Numbers

  /** The callback arguments for frames at `times` when the last frame seen
      was at `previous`: nothing for the very first frame. */
  function Deltas(previous: Option<real>, times: seq<real>): (r: seq<real>)
    ensures |r| == if previous.Some? then |times| else if times == [] then 0 else |times| - 1
    ensures previous.Some? && times != [] ==> r[0] == (times[0] - previous.value) / 1000.0
    decreases |times|
  {
    if times == [] then []
    else (if previous.Some? then [(times[0] - previous.value) / 1000.0] else []) + Deltas(Some(times[0]), times[1..])
  }

  /** The deltas telescope: together they cover the time from `previous` to
      the last frame. */
  lemma {:induction false} DeltasTelescope(previous: real, times: seq<real>)
    requires times != []
    ensures Sum(Deltas(Some(previous), times)) == (times[|times| - 1] - previous) / 1000.0
    decreases |times|
  {
    var d := Deltas(Some(previous), times);
    var rest := Deltas(Some(times[0]), times[1..]);
    assert d == [(times[0] - previous) / 1000.0] + rest;
    assert d[1..] == rest;
    if |times| == 1 {
      assert rest == [];
    } else {
      DeltasTelescope(times[0], times[1..]);
    }
  }

  /** Over a whole run the callback receives, in total, the time from the
      first frame to the last. */
  lemma ElapsedTime(times: seq<real>)
    requires |times| >= 2
    ensures Sum(Deltas(None, times)) == (times[|times| - 1] - times[0]) / 1000.0
  {
    assert Deltas(None, times) == Deltas(Some(times[0]), times[1..]);
    DeltasTelescope(times[0], times[1..]);
  }

  /** The hook's refs: whether a frame request is outstanding, the previous
      frame's time, and the callback arguments delivered so far. */
  class FrameLoop {
    var pending: bool
    var previousTime: Option<real>
    var delivered: seq<real>
    ghost var frames: seq<real>

    /** The previous time is never cleared, so the deltas follow every frame
        ever seen, across pauses. */
    ghost predicate Valid()
      reads this
    {
      delivered == Deltas(None, frames) &&
      previousTime == (if frames == [] then None else Some(frames[|frames| - 1]))
    }

    /** Mounting runs the effect once. */
    constructor (isActive: bool)
      ensures Valid() && frames == [] && pending == isActive
    {
      pending := isActive;
      previousTime := None;
      delivered := [];
      frames := [];
    }

    /** The effect after a change of `isActive` or the callback: the previous
        run's request is cancelled, and an active effect requests a frame. */
    method Effect(isActive: bool)
      requires Valid()
      modifies this`pending
      ensures Valid() && pending == isActive
    {
      pending := false;
      if !isActive {
        return;
      }
      pending := true;
    }

    /** `animate(time)`: deliver the delta when there was a previous frame,
        remember the time and request the next frame. */
    method Animate(time: real)
      requires Valid() && pending
      modifies this
      ensures Valid() && pending && frames == old(frames) + [time]
      ensures delivered == old(delivered) + (if old(previousTime).Some? then [(time - old(previousTime).value) / 1000.0] else [])
    {
      if previousTime.Some? {
        delivered := delivered + [(time - previousTime.value) / 1000.0];
      }
      DeltasAppend(frames, time);
      previousTime := Some(time);
      frames := frames + [time];
    }

    /** Unmounting cancels the outstanding request. */
    method Cleanup()
      modifies this`pending
      ensures !pending
    {
      pending := false;
    }
  }

  /** One more frame adds one delta at the end (none for the first frame). */
  lemma {:induction false} DeltasAppend(times: seq<real>, t: real)
    ensures Deltas(None, times + [t]) ==
      Deltas(None, times) + (if times == [] then [] else [(t - times[|times| - 1]) / 1000.0])
  {
    if times != [] {
      DeltasSomeAppend(times[0], times[1..], t);
      assert (times + [t])[1..] == times[1..] + [t];
      if |times| > 1 {
        assert times[1..][|times| - 2] == times[|times| - 1];
      }
    }
  }

  lemma {:induction false} DeltasSomeAppend(previous: real, times: seq<real>, t: real)
    ensures Deltas(Some(previous), times + [t]) ==
      Deltas(Some(previous), times) + [(t - (if times == [] then previous else times[|times| - 1])) / 1000.0]
    decreases |times|
  {
    if times == [] {
      assert Deltas(Some(t), []) == [];
    } else {
      assert (times + [t])[0] == times[0] && (times + [t])[1..] == times[1..] + [t];
      DeltasSomeAppend(times[0], times[1..], t);
      if |times| > 1 {
        assert times[1..][|times| - 2] == times[|times| - 1];
      }
    }
  }
}
