/**
 * Properties of `KeyRepeat.Step` over whole sequences of frames: what a
 * control reports after any history of raw samples.
 */
module KeyRepeatTraces {
  import opened KeyRepeat

  /** One frame's raw input: is the key down, and the clock reading. */
  datatype Sample = Sample(isKeyDown: bool, now: real)

  /** The control's state after feeding it `samples` in order, starting from `s`. */
  function Run(t: Timing, s: ControlState, samples: seq<Sample>): (r: ControlState)
    decreases |samples|
  {
    if samples == [] then s
    else
      var last := samples[|samples| - 1];
      Step(t, Run(t, s, samples[..|samples| - 1]), last.isKeyDown, last.now)
  }

  /** Number of up->down edges in the run. */
  function FreshPressCount(t: Timing, s: ControlState, samples: seq<Sample>): (r: nat)
    decreases |samples|
  {
    if samples == [] then 0
    else
      var prefix := samples[..|samples| - 1];
      FreshPressCount(t, s, prefix) +
      (if FreshPress(Run(t, s, prefix), samples[|samples| - 1].isKeyDown) then 1 else 0)
  }

  /** Number of frames on which the control reported a double press. */
  function DoublePressCount(t: Timing, s: ControlState, samples: seq<Sample>): (r: nat)
    decreases |samples|
  {
    if samples == [] then 0
    else
      DoublePressCount(t, s, samples[..|samples| - 1]) +
      (if Run(t, s, samples).isDoublePressed then 1 else 0)
  }

  /** Clock readings of the frames on which the control reported a press. */
  function PressedTimes(t: Timing, s: ControlState, samples: seq<Sample>): (r: seq<real>)
    decreases |samples|
  {
    if samples == [] then []
    else
      PressedTimes(t, s, samples[..|samples| - 1]) +
      (if Run(t, s, samples).isPressed then [samples[|samples| - 1].now] else [])
  }

  /**
   * Every reachable state keeps `Inv`; in particular the control reports the
   * key held exactly when the last sample had it down.
   */
  lemma {:induction false} HeldFollowsLastSample(t: Timing, s: ControlState, samples: seq<Sample>)
    requires Inv(s)
    ensures Inv(Run(t, s, samples))
    ensures samples != [] ==> Run(t, s, samples).isHeld == samples[|samples| - 1].isKeyDown
    decreases |samples|
  {
    if samples != [] {
      HeldFollowsLastSample(t, s, samples[..|samples| - 1]);
    }
  }

  /**
   * A detected double press consumes its pair: every double press uses up two
   * up->down edges of its own (one of them may be the candidate remembered
   * before the run started), so a third quick press never pairs with the first.
   */
  lemma {:induction false} DoublePressConsumesPair(t: Timing, s: ControlState, samples: seq<Sample>)
    ensures 2 * DoublePressCount(t, s, samples) + Pending(Run(t, s, samples))
              <= FreshPressCount(t, s, samples) + Pending(s)
    decreases |samples|
  {
    if samples != [] {
      DoublePressConsumesPair(t, s, samples[..|samples| - 1]);
    }
  }

  /** From a new control, double presses are at most half the presses. */
  lemma {:induction false} DoublePressesFromIdle(t: Timing, samples: seq<Sample>)
    ensures 2 * DoublePressCount(t, Idle, samples) <= FreshPressCount(t, Idle, samples)
  {
    DoublePressConsumesPair(t, Idle, samples);
  }

  /** Extending a run by one sample is one more `Step`. */
  lemma RunPrefix(t: Timing, s: ControlState, samples: seq<Sample>, k: nat)
    requires k < |samples|
    ensures Run(t, s, samples[..k + 1]) == Step(t, Run(t, s, samples[..k]), samples[k].isKeyDown, samples[k].now)
    ensures PressedTimes(t, s, samples[..k + 1]) ==
              PressedTimes(t, s, samples[..k]) + (if Run(t, s, samples[..k + 1]).isPressed then [samples[k].now] else [])
  {
    assert samples[..k + 1][..k] == samples[..k];
  }

  /** A key held from t = 0.0 to 1.5 in 0.1 s frames and released at 1.6. */
  const HoldSamples: seq<Sample> :=
    [Sample(true, 0.0), Sample(true, 0.1), Sample(true, 0.2), Sample(true, 0.3),
     Sample(true, 0.4), Sample(true, 0.5), Sample(true, 0.6), Sample(true, 0.7),
     Sample(true, 0.8), Sample(true, 0.9), Sample(true, 1.0), Sample(true, 1.1),
     Sample(true, 1.2), Sample(true, 1.3), Sample(true, 1.4), Sample(true, 1.5),
     Sample(false, 1.6)]

  /** The first 2 frames of `HoldSamples`. */
  lemma HoldThrough2()
    ensures Run(DefaultTiming, Idle, HoldSamples[..2]) == ControlState(true, false, true, true, 0.0, false, 0.0) &&
            PressedTimes(DefaultTiming, Idle, HoldSamples[..2]) == [0.0]
  {
    assert HoldSamples[..0] == [];
    assert Run(DefaultTiming, Idle, HoldSamples[..1]) == ControlState(true, true, true, true, 0.0, false, 0.0) &&
           PressedTimes(DefaultTiming, Idle, HoldSamples[..1]) == [0.0] by {
      RunPrefix(DefaultTiming, Idle, HoldSamples, 0);
    }
    RunPrefix(DefaultTiming, Idle, HoldSamples, 1);
  }

  /** The first 4 frames of `HoldSamples`. */
  lemma HoldThrough4()
    ensures Run(DefaultTiming, Idle, HoldSamples[..4]) == ControlState(true, false, true, true, 0.0, false, 0.0) &&
            PressedTimes(DefaultTiming, Idle, HoldSamples[..4]) == [0.0]
  {
    HoldThrough2();
    assert Run(DefaultTiming, Idle, HoldSamples[..3]) == ControlState(true, false, true, true, 0.0, false, 0.0) &&
           PressedTimes(DefaultTiming, Idle, HoldSamples[..3]) == [0.0] by {
      RunPrefix(DefaultTiming, Idle, HoldSamples, 2);
    }
    RunPrefix(DefaultTiming, Idle, HoldSamples, 3);
  }

  /** The first 6 frames of `HoldSamples`. */
  lemma HoldThrough6()
    ensures Run(DefaultTiming, Idle, HoldSamples[..6]) == ControlState(true, false, true, true, 0.0, false, 0.0) &&
            PressedTimes(DefaultTiming, Idle, HoldSamples[..6]) == [0.0]
  {
    HoldThrough4();
    assert Run(DefaultTiming, Idle, HoldSamples[..5]) == ControlState(true, false, true, true, 0.0, false, 0.0) &&
           PressedTimes(DefaultTiming, Idle, HoldSamples[..5]) == [0.0] by {
      RunPrefix(DefaultTiming, Idle, HoldSamples, 4);
    }
    RunPrefix(DefaultTiming, Idle, HoldSamples, 5);
  }

  /** The first 8 frames of `HoldSamples`. */
  lemma HoldThrough8()
    ensures Run(DefaultTiming, Idle, HoldSamples[..8]) == ControlState(true, false, true, false, 0.6, false, 0.0) &&
            PressedTimes(DefaultTiming, Idle, HoldSamples[..8]) == [0.0, 0.6]
  {
    HoldThrough6();
    assert Run(DefaultTiming, Idle, HoldSamples[..7]) == ControlState(true, true, true, false, 0.6, false, 0.0) &&
           PressedTimes(DefaultTiming, Idle, HoldSamples[..7]) == [0.0, 0.6] by {
      RunPrefix(DefaultTiming, Idle, HoldSamples, 6);
    }
    RunPrefix(DefaultTiming, Idle, HoldSamples, 7);
  }

  /** The first 10 frames of `HoldSamples`. */
  lemma HoldThrough10()
    ensures Run(DefaultTiming, Idle, HoldSamples[..10]) == ControlState(true, false, true, false, 0.6, false, 0.0) &&
            PressedTimes(DefaultTiming, Idle, HoldSamples[..10]) == [0.0, 0.6]
  {
    HoldThrough8();
    assert Run(DefaultTiming, Idle, HoldSamples[..9]) == ControlState(true, false, true, false, 0.6, false, 0.0) &&
           PressedTimes(DefaultTiming, Idle, HoldSamples[..9]) == [0.0, 0.6] by {
      RunPrefix(DefaultTiming, Idle, HoldSamples, 8);
    }
    RunPrefix(DefaultTiming, Idle, HoldSamples, 9);
  }

  /** The first 12 frames of `HoldSamples`. */
  lemma HoldThrough12()
    ensures Run(DefaultTiming, Idle, HoldSamples[..12]) == ControlState(true, false, true, false, 1.0, false, 0.0) &&
            PressedTimes(DefaultTiming, Idle, HoldSamples[..12]) == [0.0, 0.6, 1.0]
  {
    HoldThrough10();
    assert Run(DefaultTiming, Idle, HoldSamples[..11]) == ControlState(true, true, true, false, 1.0, false, 0.0) &&
           PressedTimes(DefaultTiming, Idle, HoldSamples[..11]) == [0.0, 0.6, 1.0] by {
      RunPrefix(DefaultTiming, Idle, HoldSamples, 10);
    }
    RunPrefix(DefaultTiming, Idle, HoldSamples, 11);
  }

  /** The first 14 frames of `HoldSamples`. */
  lemma HoldThrough14()
    ensures Run(DefaultTiming, Idle, HoldSamples[..14]) == ControlState(true, false, true, false, 1.0, false, 0.0) &&
            PressedTimes(DefaultTiming, Idle, HoldSamples[..14]) == [0.0, 0.6, 1.0]
  {
    HoldThrough12();
    assert Run(DefaultTiming, Idle, HoldSamples[..13]) == ControlState(true, false, true, false, 1.0, false, 0.0) &&
           PressedTimes(DefaultTiming, Idle, HoldSamples[..13]) == [0.0, 0.6, 1.0] by {
      RunPrefix(DefaultTiming, Idle, HoldSamples, 12);
    }
    RunPrefix(DefaultTiming, Idle, HoldSamples, 13);
  }

  /** The first 16 frames of `HoldSamples`. */
  lemma HoldThrough16()
    ensures Run(DefaultTiming, Idle, HoldSamples[..16]) == ControlState(true, false, true, false, 1.4, false, 0.0) &&
            PressedTimes(DefaultTiming, Idle, HoldSamples[..16]) == [0.0, 0.6, 1.0, 1.4]
  {
    HoldThrough14();
    assert Run(DefaultTiming, Idle, HoldSamples[..15]) == ControlState(true, true, true, false, 1.4, false, 0.0) &&
           PressedTimes(DefaultTiming, Idle, HoldSamples[..15]) == [0.0, 0.6, 1.0, 1.4] by {
      RunPrefix(DefaultTiming, Idle, HoldSamples, 14);
    }
    RunPrefix(DefaultTiming, Idle, HoldSamples, 15);
  }

  /**
   * With the default timing, the held key fires on the initial press, after
   * the 0.6 s delay, and then every 0.4 s; release clears the held state.
   */
  lemma HoldRepeatsOnSchedule()
    ensures PressedTimes(DefaultTiming, Idle, HoldSamples) == [0.0, 0.6, 1.0, 1.4]
    ensures Run(DefaultTiming, Idle, HoldSamples[..16]).isHeld
    ensures !Run(DefaultTiming, Idle, HoldSamples).isHeld
  {
    HoldThrough16();
    RunPrefix(DefaultTiming, Idle, HoldSamples, 16);
    assert HoldSamples[..17] == HoldSamples;
  }

  /** Four taps 0.2 s apart, each released 0.1 s after it went down. */
  const TapSamples: seq<Sample> :=
    [Sample(true, 1.0), Sample(false, 1.1), Sample(true, 1.2), Sample(false, 1.3),
     Sample(true, 1.4), Sample(false, 1.5), Sample(true, 1.6)]

  /**
   * The second tap completes a double press; the third would be within the
   * window of the second, but that press was consumed by the pair, so it only
   * starts a new candidate, which the fourth tap completes.
   */
  lemma TapsPairUpOnce()
    ensures Run(DefaultTiming, Idle, TapSamples[..3]).isDoublePressed
    ensures !Run(DefaultTiming, Idle, TapSamples[..5]).isDoublePressed
    ensures Run(DefaultTiming, Idle, TapSamples).isDoublePressed
  {
    TapsThrough4();
    TapsFrom4();
  }

  /** The first two taps of `TapSamples`, and the release after them. */
  lemma TapsThrough4()
    ensures Run(DefaultTiming, Idle, TapSamples[..3]).isDoublePressed
    ensures Run(DefaultTiming, Idle, TapSamples[..4]) == ControlState(false, false, false, true, 0.0, false, 0.0)
  {
    assert TapSamples[..0] == [];
    assert Run(DefaultTiming, Idle, TapSamples[..1]) == ControlState(true, true, true, true, 1.0, false, 1.0) by {
      RunPrefix(DefaultTiming, Idle, TapSamples, 0);
    }
    assert Run(DefaultTiming, Idle, TapSamples[..2]) == ControlState(false, false, false, true, 0.0, false, 1.0) by {
      RunPrefix(DefaultTiming, Idle, TapSamples, 1);
    }
    assert Run(DefaultTiming, Idle, TapSamples[..3]) == ControlState(true, true, true, true, 1.2, true, 0.0) by {
      RunPrefix(DefaultTiming, Idle, TapSamples, 2);
    }
    RunPrefix(DefaultTiming, Idle, TapSamples, 3);
  }

  /** The last three taps of `TapSamples`. */
  lemma TapsFrom4()
    ensures !Run(DefaultTiming, Idle, TapSamples[..5]).isDoublePressed
    ensures Run(DefaultTiming, Idle, TapSamples).isDoublePressed
  {
    TapsThrough4();
    assert Run(DefaultTiming, Idle, TapSamples[..5]) == ControlState(true, true, true, true, 1.4, false, 1.4) by {
      RunPrefix(DefaultTiming, Idle, TapSamples, 4);
    }
    assert Run(DefaultTiming, Idle, TapSamples[..6]) == ControlState(false, false, false, true, 0.0, false, 1.4) by {
      RunPrefix(DefaultTiming, Idle, TapSamples, 5);
    }
    RunPrefix(DefaultTiming, Idle, TapSamples, 6);
    assert TapSamples[..7] == TapSamples;
  }

  /**
   * 0.0 doubles as the "no remembered press" sentinel, so a press stamped
   * exactly 0.0 can never be the first half of a double press.
   */
  lemma PressAtTimeZeroNeverPairs(t: Timing, later: real)
    ensures !Run(t, Idle, [Sample(true, 0.0), Sample(false, later), Sample(true, later)]).isDoublePressed
  {
    var samples := [Sample(true, 0.0), Sample(false, later), Sample(true, later)];
    assert samples[..0] == [];
    RunPrefix(t, Idle, samples, 0);
    RunPrefix(t, Idle, samples, 1);
    RunPrefix(t, Idle, samples, 2);
    assert samples[..3] == samples;
  }
}
