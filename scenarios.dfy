/**
 * The parking sensor end to end: a reading turned into a distance, then into
 * a strip frame, and the behaviours the Catch2 tests pin down, stated for the
 * model.
 */
module ParkingSensor {
  import opened GetDistance
  import opened NeoPixelStrip
  import opened LightstripAnimation

  /**
   * An unmeasurable reading is treated as "too close": its sentinel lies in
   * the stop zone of any stop distance that is not below -1, so the strip
   * flashes and the flash state toggles.
   */
  lemma InvalidReadingFlashes(duration: Long, maxDistance: real, stopDistance: real,
                              orangeDistance: real, redDistance: real,
                              numPixels: nat, flashState: bool)
    requires duration <= 0 || duration >= ECHO_CEILING_US
    requires stopDistance >= SENTINEL
    ensures NextFlashState(DistanceCM(duration), stopDistance, flashState) == !flashState
    ensures ParkingBarFrame(DistanceCM(duration), maxDistance, stopDistance, orangeDistance,
                            redDistance, numPixels, flashState)
            == [if flashState then FillCmd(RED, 0, numPixels) else ClearCmd, ShowCmd]
  {
  }

  /**
   * Two stop-zone frames from an "off" flash state: a cleared strip, then the
   * whole strip in red, and the flash state is off again.
   */
  lemma TwoStopZoneFrames(d1: real, d2: real, maxDistance: real, stopDistance: real,
                          orangeDistance: real, redDistance: real, numPixels: nat)
    requires d1 <= stopDistance && d2 <= stopDistance
    ensures var mid := NextFlashState(d1, stopDistance, false);
      ParkingBarFrame(d1, maxDistance, stopDistance, orangeDistance, redDistance, numPixels, false) +
      ParkingBarFrame(d2, maxDistance, stopDistance, orangeDistance, redDistance, numPixels, mid)
        == [ClearCmd, ShowCmd, FillCmd(RED, 0, numPixels), ShowCmd]
      && !NextFlashState(d2, stopDistance, mid)
  {
  }

  /**
   * The bar frames of the test configuration (10 pixels, maximum 200, orange
   * 50, red 30, stop 20): green, orange and red bars, each starting at
   * pixel 0 and lighting at least one pixel, with both thresholds taking the
   * nearer colour.
   */
  lemma TestConfigurationBars(flashState: bool)
    ensures ParkingBarFrame(100.0, 200.0, 20.0, 50.0, 30.0, 10, flashState) == [ClearCmd, FillCmd(GREEN, 0, 5), ShowCmd]
    ensures ParkingBarFrame(50.0, 200.0, 20.0, 50.0, 30.0, 10, flashState) == [ClearCmd, FillCmd(ORANGE, 0, 8), ShowCmd]
    ensures ParkingBarFrame(40.0, 200.0, 20.0, 50.0, 30.0, 10, flashState) == [ClearCmd, FillCmd(ORANGE, 0, 8), ShowCmd]
    ensures ParkingBarFrame(30.0, 200.0, 20.0, 50.0, 30.0, 10, flashState) == [ClearCmd, FillCmd(RED, 0, 9), ShowCmd]
    ensures ParkingBarFrame(25.0, 200.0, 20.0, 50.0, 30.0, 10, flashState) == [ClearCmd, FillCmd(RED, 0, 9), ShowCmd]
  {
    assert BarLength(100.0, 200.0, 20.0, 10) == 5;
    assert BarLength(50.0, 200.0, 20.0, 10) == 8;
    assert BarLength(40.0, 200.0, 20.0, 10) == 8;
    assert BarLength(30.0, 200.0, 20.0, 10) == 9;
    assert BarLength(25.0, 200.0, 20.0, 10) == 9;
  }

  /**
   * Two calls of animateParkingBar at a stop-zone distance on a fresh
   * 10-pixel strip: clear and show, then the 10 pixels in red and show; the
   * flash state ends off.
   */
  method StopZoneTwice(distance: real) returns (actions: seq<Action>, numShow: nat, flashState: bool)
    requires distance <= 20.0
    ensures actions == [ClearCmd, ShowCmd, FillCmd(RED, 0, 10), ShowCmd]
    ensures numShow == 2
    ensures !flashState
  {
    var strip := new Strip(10);
    flashState := false;
    flashState := AnimateParkingBar(strip, distance, 200.0, 20.0, 50.0, 30.0, flashState);
    flashState := AnimateParkingBar(strip, distance, 200.0, 20.0, 50.0, 30.0, flashState);
    actions, numShow := strip.actions, strip.numShow;
  }

  /**
   * The start-up sweep of a 2-pixel blue window on a fresh 10-pixel strip:
   * ten shows, the last command a show and the one before it the whole strip
   * in blue.
   */
  method StartupSweepOnTenPixels() returns (actions: seq<Action>, numShow: nat)
    ensures numShow == 10
    ensures |actions| >= 2 && actions[|actions| - 1] == ShowCmd
    ensures actions[|actions| - 2] == FillCmd(Rgb(0, 0, 255), 0, 10)
  {
    var strip := new Strip(10);
    AnimateLightstripOn(strip, Rgb(0, 0, 255), 2);
    StartupSweepProperties(Rgb(0, 0, 255), 2, 10);
    actions, numShow := strip.actions, strip.numShow;
  }
}
