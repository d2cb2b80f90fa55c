/** The per-frame distance monitor that feeds the lip-sync object's
    distance-volume setter (app/hooks/useDistanceVolumeControl.ts). */
module DistanceVolumeControl {

  import opened Numbers

  /** A distance is forwarded only when it moved by more than this. */
  const Threshold: real := 0.01

  predicate Significant(last: real, d: real)
  {
    Abs(d - last) > Threshold
  }

  /** The distances forwarded over one monitoring session whose frames
      measured `ds`; `lastDistance` starts at 0 in every session. */
  function Forwarded(ds: seq<real>): seq<real>
  {
    if ds == [] then []
    else
      var before := Forwarded(ds[..|ds| - 1]);
      var d := ds[|ds| - 1];
      if Significant(LastOf(before), d) then before + [d] else before
  }

  /** The value of `lastDistance` once the forwarded distances are `sent`. */
  function LastOf(sent: seq<real>): real
  {
    if sent == [] then 0.0 else sent[|sent| - 1]
  }

  /** Consecutive forwarded distances, starting from the initial 0, differ
      by more than the threshold. */
  ghost predicate Spaced(sent: seq<real>)
  {
    (sent != [] ==> Significant(0.0, sent[0])) &&
    forall i :: 0 < i < |sent| ==> Significant(sent[i - 1], sent[i])
  }

  lemma {:induction false} ForwardedIsSpaced(ds: seq<real>)
    ensures Spaced(Forwarded(ds))
  {
    if ds != [] {
      ForwardedIsSpaced(ds[..|ds| - 1]);
    }
  }

  /** Only measured distances are forwarded, at most one per frame. */
  lemma {:induction false} ForwardedComesFromFrames(ds: seq<real>)
    ensures |Forwarded(ds)| <= |ds|
    ensures forall x :: x in Forwarded(ds) ==> x in ds
  {
    if ds != [] {
      var init := ds[..|ds| - 1];
      ForwardedComesFromFrames(init);
      assert forall x :: x in init ==> x in ds;
    }
  }

  /** Filtering an already forwarded stream forwards all of it again. */
  lemma {:induction false} ForwardingIsIdempotent(sent: seq<real>)
    requires Spaced(sent)
    ensures Forwarded(sent) == sent
  {
    if sent != [] {
      var init := sent[..|sent| - 1];
      assert Spaced(init) by {
        forall i | 0 < i < |init|
          ensures Significant(init[i - 1], init[i])
        {
          assert init[i - 1] == sent[i - 1] && init[i] == sent[i];
        }
      }
      ForwardingIsIdempotent(init);
      assert LastOf(init) == 0.0 || LastOf(init) == sent[|sent| - 2];
      assert sent == init + [sent[|sent| - 1]];
    }
  }

  /** A run of frames at one fixed distance forwards it at most once. */
  lemma {:induction false} StationaryForwardsAtMostOnce(ds: seq<real>, d: real)
    requires forall i :: 0 <= i < |ds| ==> ds[i] == d
    ensures Forwarded(ds) == [] || Forwarded(ds) == [d]
  {
    if ds != [] {
      StationaryForwardsAtMostOnce(ds[..|ds| - 1], d);
    }
  }

  /** The monitoring effect and its frame loop. `calls` records every
      `setVolumeByDistance` argument; the ghost `session` the distances
      measured since monitoring last (re)started. */
  class DistanceMonitor {
    var framePending: bool
    var lastDistance: real
    var calls: seq<real>
    ghost var session: seq<real>
    ghost var sessionStart: nat

    ghost predicate Valid()
      reads this
    {
      sessionStart <= |calls| &&
      calls[sessionStart..] == Forwarded(session) &&
      lastDistance == LastOf(Forwarded(session))
    }

    constructor ()
      ensures Valid() && !framePending && calls == [] && lastDistance == 0.0
    {
      framePending := false;
      lastDistance := 0.0;
      calls := [];
      session := [];
      sessionStart := 0;
    }

    /** The effect body. `guards` is `isPlaying` with the lip-sync object,
        camera and character position all present; `distance` is the
        camera-to-character distance at the synchronous first frame. */
    method Start(guards: bool, distance: real)
      requires Valid()
      modifies this
      ensures Valid()
      ensures !guards ==> !framePending && calls == old(calls) && lastDistance == old(lastDistance)
      ensures guards ==> framePending && session == [distance] && sessionStart == |old(calls)|
      ensures guards ==> calls == old(calls) + (if Significant(0.0, distance) then [distance] else [])
    {
      if !guards {
        framePending := false;
        return;
      }
      lastDistance := 0.0;
      session := [];
      sessionStart := |calls|;
      UpdateDistance(true, distance);
    }

    /** `updateDistance`: one frame of the loop. */
    method UpdateDistance(guards: bool, distance: real)
      requires Valid()
      modifies this
      ensures Valid() && sessionStart == old(sessionStart)
      ensures !guards ==> !framePending && calls == old(calls) && lastDistance == old(lastDistance)
      ensures !guards ==> session == old(session)
      ensures guards ==> framePending && session == old(session) + [distance]
      ensures guards && Significant(old(lastDistance), distance) ==>
        calls == old(calls) + [distance] && lastDistance == distance
      ensures guards && !Significant(old(lastDistance), distance) ==>
        calls == old(calls) && lastDistance == old(lastDistance)
    {
      if !guards {
        framePending := false;
        return;
      }
      ghost var before := session;
      session := session + [distance];
      assert session[..|session| - 1] == before;
      if Abs(distance - lastDistance) > Threshold {
        calls := calls + [distance];
        lastDistance := distance;
      }
      framePending := true;
    }

    /** A scheduled frame firing. */
    method OnAnimationFrame(guards: bool, distance: real)
      requires Valid() && framePending
      modifies this
      ensures Valid() && sessionStart == old(sessionStart)
      ensures framePending == guards
      ensures calls == old(calls) + (if guards && Significant(old(lastDistance), distance) then [distance] else [])
    {
      UpdateDistance(guards, distance);
    }

    /** The effect's cleanup: cancel any pending frame. */
    method Cleanup()
      modifies this`framePending
      ensures !framePending
    {
      framePending := false;
    }
  }
}
