/**
 * The LED-strip animations of the parking sensor: the start-up sweep
 * (animateLightstripOn), the three-zone bar colour (getParkingBarColor) and
 * one frame of the parking bar with its flashing stop zone
 * (animateParkingBar).  Distances are exact reals; the `bool &flashState` of
 * the source is passed in and returned.
 */
module LightstripAnimation {
  import opened NeoPixelStrip

  const RED: Rgb := Rgb(255, 0, 0)
  const ORANGE: Rgb := Rgb(255, 128, 0)
  const GREEN: Rgb := Rgb(0, 255, 0)

  // ---------------------------------------------------------------------
  // Start-up sweep
  // ---------------------------------------------------------------------

  /** The first `steps` steps of the sweep: a window of `width` pixels at 0, 1, ... */
  function SweepSteps(color: Rgb, width: nat, steps: nat): seq<Action>
  {
    if steps == 0 then []
    else SweepSteps(color, width, steps - 1) + [ClearCmd, FillCmd(color, steps - 1, width), ShowCmd]
  }

  /** Everything animateLightstripOn sends: every window position, then the whole strip. */
  function StartupSweep(color: Rgb, width: nat, numPixels: nat): seq<Action>
    requires width <= numPixels
  {
    SweepSteps(color, width, numPixels - width + 1) + [FillCmd(color, 0, numPixels), ShowCmd]
  }

  /** Step `j` of the sweep is clear, the window at pixel `j`, show. */
  lemma {:induction false} SweepStepAt(color: Rgb, width: nat, steps: nat, j: nat)
    requires j < steps
    ensures |SweepSteps(color, width, steps)| == 3 * steps
    ensures SweepSteps(color, width, steps)[3 * j] == ClearCmd
    ensures SweepSteps(color, width, steps)[3 * j + 1] == FillCmd(color, j, width)
    ensures SweepSteps(color, width, steps)[3 * j + 2] == ShowCmd
  {
    if j < steps - 1 {
      SweepStepAt(color, width, steps - 1, j);
    } else if steps > 1 {
      SweepStepAt(color, width, steps - 1, 0);
    }
  }

  /** Each sweep step shows exactly once. */
  lemma {:induction false} SweepShowCount(color: Rgb, width: nat, steps: nat)
    ensures ShowCount(SweepSteps(color, width, steps)) == steps
  {
    if steps > 0 {
      SweepShowCount(color, width, steps - 1);
      ShowCountOfStep(ClearCmd, FillCmd(color, steps - 1, width));
      ShowCountAppend(SweepSteps(color, width, steps - 1), [ClearCmd, FillCmd(color, steps - 1, width), ShowCmd]);
    }
  }

  /**
   * The start-up sweep shows numPixels - width + 2 frames, ends with the
   * whole strip filled and shown, and never fills past the end of the strip.
   */
  lemma StartupSweepProperties(color: Rgb, width: nat, numPixels: nat)
    requires width <= numPixels
    ensures ShowCount(StartupSweep(color, width, numPixels)) == numPixels - width + 2
    ensures |StartupSweep(color, width, numPixels)| == 3 * (numPixels - width + 1) + 2
    ensures StartupSweep(color, width, numPixels)[3 * (numPixels - width + 1)] == FillCmd(color, 0, numPixels)
    ensures StartupSweep(color, width, numPixels)[3 * (numPixels - width + 1) + 1] == ShowCmd
    ensures FillsWithin(StartupSweep(color, width, numPixels), numPixels)
  {
    var steps := numPixels - width + 1;
    var sweep := SweepSteps(color, width, steps);
    var log := StartupSweep(color, width, numPixels);
    SweepShowCount(color, width, steps);
    ShowCountAppend(sweep, [FillCmd(color, 0, numPixels), ShowCmd]);
    SweepStepAt(color, width, steps, 0);
    forall i | 0 <= i < |log| && log[i].FillCmd?
      ensures log[i].first + log[i].count <= numPixels
    {
      if i < |sweep| {
        SweepStepAt(color, width, steps, i / 3);
      }
    }
  }

  /**
   * animateLightstripOn, for a window no wider than the strip, with the
   * declared defaults: a blue (0x0000FF) window of 2 pixels.
   */
  method AnimateLightstripOn(strip: Strip, color: Rgb := Rgb(0, 0, 255), width: nat := 2)
    requires strip.Valid()
    requires width <= strip.numPixels
    modifies strip
    ensures strip.Valid()
    ensures strip.actions == old(strip.actions) + StartupSweep(color, width, strip.numPixels)
    ensures strip.numShow == old(strip.numShow) + strip.numPixels - width + 2
  {
    var numPixels := strip.numPixels;
    var i: nat := 0;
    while i <= numPixels - width
      invariant i <= numPixels - width + 1
      invariant strip.Valid()
      invariant strip.actions == old(strip.actions) + SweepSteps(color, width, i)
    {
      strip.Clear();
      strip.Fill(color, i, width);
      strip.Show();
      i := i + 1;
    }
    strip.Fill(color, 0, numPixels);
    strip.Show();
    StartupSweepProperties(color, width, numPixels);
    ShowCountAppend(old(strip.actions), StartupSweep(color, width, numPixels));
  }

  // ---------------------------------------------------------------------
  // Parking bar
  // ---------------------------------------------------------------------

  /**
   * getParkingBarColor: red up to and including the red threshold, orange up
   * to and including the orange threshold, green beyond both.
   */
  function BarColor(distance: real, orangeDistance: real, redDistance: real): (c: Rgb)
    ensures c == RED <==> distance <= redDistance
    ensures c == ORANGE <==> redDistance < distance <= orangeDistance
    ensures c == GREEN <==> redDistance < distance && orangeDistance < distance
  {
    if distance <= redDistance then RED
    else if distance <= orangeDistance then ORANGE
    else GREEN
  }

  /** The C conversion `(int)x` of a floating value: truncation toward zero. */
  function Trunc(x: real): (r: int)
    ensures 0.0 <= x ==> r as real <= x < r as real + 1.0
    ensures x < 0.0 ==> r as real - 1.0 < x <= r as real
  {
    if x >= 0.0 then x.Floor else -((-x).Floor)
  }

  /** Strictly between the stop and the maximum distance, the interpolation factor is in (0, 1). */
  lemma InterpolationFactor(distance: real, maxDistance: real, stopDistance: real)
    requires stopDistance < distance < maxDistance
    ensures 0.0 < (maxDistance - distance) / (maxDistance - stopDistance) < 1.0
  {
    var span := maxDistance - stopDistance;
    var f := (maxDistance - distance) / span;
    assert f * span == maxDistance - distance;
    assert f >= 1.0 ==> f * span >= 1.0 * span;
  }

  /** A fraction strictly between 0 and 1 of the strip stays inside the strip. */
  lemma FractionOfStrip(f: real, numPixels: nat)
    requires 0.0 < f < 1.0
    ensures 0.0 <= f * numPixels as real <= numPixels as real
    ensures numPixels > 0 ==> f * numPixels as real < numPixels as real
  {
    var n := numPixels as real;
    assert f * n <= 1.0 * n;
    assert numPixels > 0 ==> f * n < 1.0 * n;
  }

  /**
   * The number of lit pixels of the bar: between the stop and the maximum
   * distance it is the floor of the linear interpolation from numPixels
   * (at stopDistance) down to 0 (at maxDistance); elsewhere it is 0.  It
   * always fits the strip and never lights the whole of a non-empty strip.
   */
  function BarLength(distance: real, maxDistance: real, stopDistance: real, numPixels: nat): (k: nat)
    ensures k <= numPixels
    ensures numPixels > 0 ==> k < numPixels
    ensures !(stopDistance < distance < maxDistance) ==> k == 0
    ensures stopDistance < distance < maxDistance ==>
      k as real <= (maxDistance - distance) / (maxDistance - stopDistance) * numPixels as real < k as real + 1.0
  {
    if stopDistance < distance < maxDistance then
      var f := (maxDistance - distance) / (maxDistance - stopDistance);
      InterpolationFactor(distance, maxDistance, stopDistance);
      FractionOfStrip(f, numPixels);
      (f * numPixels as real).Floor
    else
      0
  }

  /** The bar does not grow as the car moves away. */
  lemma BarLengthNonIncreasing(d1: real, d2: real, maxDistance: real, stopDistance: real, numPixels: nat)
    requires stopDistance < d1 <= d2
    ensures BarLength(d2, maxDistance, stopDistance, numPixels) <= BarLength(d1, maxDistance, stopDistance, numPixels)
  {
    if d2 < maxDistance {
      var span := maxDistance - stopDistance;
      var n := numPixels as real;
      var f1 := (maxDistance - d1) / span;
      var f2 := (maxDistance - d2) / span;
      assert f2 <= f1 by {
        assert f2 * span == maxDistance - d2;
        assert f1 * span == maxDistance - d1;
      }
      assert f2 * n <= f1 * n;
    }
  }

  /** The flash state after one frame: on only after an "off" frame in the stop zone. */
  function NextFlashState(distance: real, stopDistance: real, flashState: bool): (next: bool)
    ensures next <==> distance <= stopDistance && !flashState
  {
    if distance <= stopDistance then !flashState else false
  }

  /**
   * The commands of one animateParkingBar frame.  In the stop zone it is the
   * whole strip in red when the flash state is on and a cleared strip when it
   * is off; beyond it, a cleared strip and the bar of BarLength pixels from
   * pixel 0 in the zone colour.  Either way the frame ends with its one show.
   */
  function ParkingBarFrame(distance: real, maxDistance: real, stopDistance: real,
                           orangeDistance: real, redDistance: real,
                           numPixels: nat, flashState: bool): (frame: seq<Action>)
    ensures |frame| > 0 && frame[|frame| - 1] == ShowCmd && ShowCount(frame) == 1
    ensures FillsWithin(frame, numPixels)
    ensures distance <= stopDistance && flashState ==> frame == [FillCmd(RED, 0, numPixels), ShowCmd]
    ensures distance <= stopDistance && !flashState ==> frame == [ClearCmd, ShowCmd]
    ensures stopDistance < distance ==>
      |frame| == 3 && frame[0] == ClearCmd &&
      frame[1] == FillCmd(BarColor(distance, orangeDistance, redDistance), 0,
                          BarLength(distance, maxDistance, stopDistance, numPixels))
  {
    ShowCountOfStep(ClearCmd, FillCmd(BarColor(distance, orangeDistance, redDistance), 0,
                                      BarLength(distance, maxDistance, stopDistance, numPixels)));
    ShowCountOfStep(FillCmd(RED, 0, numPixels), ClearCmd);
    if distance <= stopDistance then
      [if flashState then FillCmd(RED, 0, numPixels) else ClearCmd, ShowCmd]
    else
      [ClearCmd, FillCmd(BarColor(distance, orangeDistance, redDistance), 0,
                         BarLength(distance, maxDistance, stopDistance, numPixels)), ShowCmd]
  }

  /**
   * animateParkingBar: sends one frame to the strip and returns the new flash
   * state.  The pixel count is computed as the source does, by a truncating
   * conversion and two clamps, and agrees with BarLength.
   */
  method AnimateParkingBar(strip: Strip, distance: real, maxDistance: real, stopDistance: real,
                           orangeDistance: real, redDistance: real, flashState: bool)
    returns (newFlashState: bool)
    requires strip.Valid()
    modifies strip
    ensures strip.Valid()
    ensures strip.actions == old(strip.actions) +
      ParkingBarFrame(distance, maxDistance, stopDistance, orangeDistance, redDistance, strip.numPixels, flashState)
    ensures strip.numShow == old(strip.numShow) + 1
    ensures newFlashState == NextFlashState(distance, stopDistance, flashState)
  {
    var numPixels := strip.numPixels;
    if distance <= stopDistance {
      if flashState {
        strip.Fill(RED, 0, numPixels);
      } else {
        strip.Clear();
      }
      strip.Show();
      newFlashState := !flashState;
    } else {
      var numLeds: int := 0;
      if distance < maxDistance && distance > stopDistance {
        var f := (maxDistance - distance) / (maxDistance - stopDistance);
        InterpolationFactor(distance, maxDistance, stopDistance);
        FractionOfStrip(f, numPixels);
        numLeds := Trunc(f * numPixels as real);
      }
      if numLeds < 0 {
        numLeds := 0;
      }
      if numLeds > numPixels {
        numLeds := numPixels;
      }
      assert numLeds == BarLength(distance, maxDistance, stopDistance, numPixels);
      var color := BarColor(distance, orangeDistance, redDistance);
      strip.Clear();
      strip.Fill(color, 0, numLeds);
      strip.Show();
      newFlashState := false;
    }
  }

  /** The flash state after a run of frames at the given distances. */
  function FlashAfter(distances: seq<real>, stopDistance: real, flashState: bool): bool
  {
    if distances == [] then flashState
    else NextFlashState(distances[|distances| - 1], stopDistance,
                        FlashAfter(distances[..|distances| - 1], stopDistance, flashState))
  }

  /**
   * Leaving the stop zone resets the flash, and inside it the flash
   * alternates: after a frame beyond the stop distance followed by a run of
   * stop-zone frames, the flash is on exactly when the run has odd length.
   */
  lemma {:induction false} FlashAlternatesInStopZone(before: seq<real>, run: seq<real>,
                                                      stopDistance: real, flashState: bool)
    requires |before| > 0 && before[|before| - 1] > stopDistance
    requires forall i :: 0 <= i < |run| ==> run[i] <= stopDistance
    ensures FlashAfter(before + run, stopDistance, flashState) == (|run| % 2 == 1)
  {
    if run == [] {
      assert before + run == before;
    } else {
      var all := before + run;
      assert all[..|all| - 1] == before + run[..|run| - 1];
      assert all[|all| - 1] == run[|run| - 1];
      FlashAlternatesInStopZone(before, run[..|run| - 1], stopDistance, flashState);
    }
  }
}
