/** Stylus versus finger detection on e-ink tablets: an edge-triggered
    two-state machine that calls back only when the input kind switches. */
module OnyxPen {

  /** The two callbacks the detector is built with. */
  datatype Callback = PenDetected | FingerDetected

  /** The new state and the callbacks fired for one event, from the previous state. */
  function Transition(wasPen: bool, isPen: bool): (r: (bool, seq<Callback>))
    ensures r.0 == isPen
    ensures |r.1| <= 1
    ensures r.1 == [PenDetected] <==> !wasPen && isPen
    ensures r.1 == [FingerDetected] <==> wasPen && !isPen
    ensures r.1 == [] <==> wasPen == isPen
  {
    if isPen && !wasPen then (true, [PenDetected])
    else if !isPen && wasPen then (false, [FingerDetected])
    else (wasPen, [])
  }

  /** A finger callback is always the answer to a preceding pen callback. */
  ghost predicate FingerFollowsPen(log: seq<Callback>)
  {
    forall i :: 0 <= i < |log| && log[i] == FingerDetected ==> i > 0 && log[i - 1] == PenDetected
  }

  /** The state and callbacks after a run of events. */
  function Replay(wasPen: bool, events: seq<bool>): (r: (bool, seq<Callback>))
    decreases |events|
  {
    if events == [] then (wasPen, [])
    else
      var step := Transition(wasPen, events[0]);
      var rest := Replay(step.0, events[1..]);
      (rest.0, step.1 + rest.1)
  }

  /** After a run of events the detector is in the state of the last one. */
  lemma {:induction false} ReplayEndsWithLastEvent(wasPen: bool, events: seq<bool>)
    requires events != []
    ensures Replay(wasPen, events).0 == events[|events| - 1]
    decreases |events|
  {
    if |events| > 1 {
      ReplayEndsWithLastEvent(Transition(wasPen, events[0]).0, events[1..]);
    }
  }

  /** A run of events of the kind the detector is already in fires nothing. */
  lemma {:induction false} ReplaySameKindIsSilent(wasPen: bool, events: seq<bool>)
    requires forall i :: 0 <= i < |events| ==> events[i] == wasPen
    ensures Replay(wasPen, events) == (wasPen, [])
    decreases |events|
  {
    if events != [] {
      assert forall i :: 0 <= i < |events[1..]| ==> events[1..][i] == events[i + 1];
      ReplaySameKindIsSilent(wasPen, events[1..]);
      var step := Transition(wasPen, events[0]);
      assert step.1 + Replay(step.0, events[1..]).1 == [];
    }
  }

  class OnyxPenDetector {
    var lastInputWasPen: bool
    /** The callbacks fired so far, oldest first. */
    ghost var callbacks: seq<Callback>

    ghost predicate Valid()
      reads this
    {
      FingerFollowsPen(callbacks)
      && (lastInputWasPen ==> |callbacks| > 0 && callbacks[|callbacks| - 1] == PenDetected)
    }

    constructor ()
      ensures Valid() && !lastInputWasPen && callbacks == []
    {
      lastInputWasPen := false;
      callbacks := [];
    }

    method IsPenActive() returns (active: bool)
      ensures active == lastInputWasPen
    {
      active := lastInputWasPen;
    }

    /** Processes one motion event, `isPen` telling whether it came from the
        stylus; never consumes the event. */
    method HandleMotionEvent(isPen: bool) returns (consumed: bool)
      requires Valid()
      modifies this
      ensures Valid()
      ensures !consumed
      ensures lastInputWasPen == isPen
      ensures callbacks == old(callbacks) + Transition(old(lastInputWasPen), isPen).1
    {
      if isPen && !lastInputWasPen {
        lastInputWasPen := true;
        callbacks := callbacks + [PenDetected];
      } else if !isPen && lastInputWasPen {
        lastInputWasPen := false;
        callbacks := callbacks + [FingerDetected];
      }
      consumed := false;
    }

    /** Back to finger mode, silently. */
    method Reset()
      requires Valid()
      modifies this
      ensures Valid()
      ensures !lastInputWasPen && callbacks == old(callbacks)
    {
      lastInputWasPen := false;
    }
  }
}
