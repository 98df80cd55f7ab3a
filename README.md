# Parking sensor: echo-time conversion and LED-strip animation in Dafny

A model of the decision logic of a parking-assistance sensor. An ultrasonic
rangefinder reports a round-trip echo time; `getDistanceCM` turns it into a
distance in centimetres, or the sentinel `-1` for a reading that cannot be
measured. An addressable LED strip then shows the distance: `animateParkingBar`
draws a bar from pixel 0 whose length grows as the car gets closer (0 pixels
at `maxDistance`, close to the whole strip just above `stopDistance`), coloured
green, orange or red by `getParkingBarColor`, and flashes the whole strip red
in the stop zone, alternating a boolean flash state from call to call.
`animateLightstripOn` is the start-up sweep of a fixed-width window across the
strip.

Files:

- `get_distance.dfy` (module `GetDistance`): the conversion. The timing callable
  is replaced by the duration it returns, a C `long` (32 bits on the Arduino
  target). The comparison with the unsigned literal `30000UL` converts the
  `long` to `unsigned long`. This is written out as `ToUnsignedLong`, so every
  negative duration gives the sentinel as well.
- `neopixel_strip.dfy` (module `NeoPixelStrip`): the strip as the animations use
  it. It is a class with a fixed pixel count, a log of the `clear` / `fill` /
  `show` commands it received and a show counter, like the strip mock of the
  Catch2 tests. Colours are `(r, g, b)` triples.
- `lightstrip_animation.dfy` (module `LightstripAnimation`): the three animation
  routines. `AnimateLightstripOn` and `AnimateParkingBar` are methods on the
  strip, each proved against a function that gives the commands it sends
  (`StartupSweep`, `ParkingBarFrame`). The `bool &flashState` of the source is
  passed in and returned (`NextFlashState`). The pixel count goes through the
  same truncating `(int)` conversion and the same two clamps as the source, and
  is proved equal to `BarLength`, the floor of the linear interpolation.
- `scenarios.dfy` (module `ParkingSensor`): what ties the two units together (an
  invalid reading makes the strip flash red) and the behaviours the tests of the
  repository check, stated for the model.

Distances are exact `real`s, and the speed constant is exactly `343/10000`.

Two behaviours of the code are worth stating directly:

- A distance equal to `stopDistance` falls in the stop zone, so the bar is not
  drawn there: the whole strip flashes instead. Over the exact reals of this
  model, a bar drawn strictly above the stop distance is always shorter than a
  non-empty strip (`BarLength`); this is a property of the exact-real model
  only (see the floating-point line under "Left out").
- The echo time is a signed `long`. A negative value gives the sentinel,
  because the comparison with `30000UL` converts it to a huge unsigned value.

## Model

| member | source | states |
|---|---|---|
| GetDistance.ToUnsignedLong | libraries/ParkingSensor/get_distance.cpp:6 | the `long` to `unsigned long` conversion: the result is below 2^32 and congruent to the input modulo 2^32. It is the input when the input is non-negative, and at least 2^31 when the input is negative |
| GetDistance.DistanceCM | libraries/ParkingSensor/get_distance.cpp:3-10 | the result is the sentinel -1 exactly when the duration is zero, negative or at least 30000 µs. Any other result lies strictly between 0 and 514.5 cm and, once doubled, equals duration × 0.0343 |
| GetDistance.DistanceStrictlyIncreasing | libraries/ParkingSensor/get_distance.cpp:9 | on valid durations, a longer echo gives a strictly greater distance, and that distance is above the sentinel |
| GetDistance.DistanceDeterminesDuration | libraries/ParkingSensor/get_distance.cpp:9 | two durations that give the same valid distance are equal (the conversion is invertible on valid readings) |
| GetDistance.TenThousandMicroseconds | tests/test_get_distance.cpp:5-8 | an echo of 10000 µs gives 171.5 cm |
| NeoPixelStrip.ShowCount | tests/test_LightstripAnimation.cpp:26 | counts the show commands in a command log; there are never more than the log has entries |
| NeoPixelStrip.ShowCountIsMultiplicity | tests/test_LightstripAnimation.cpp:26 | the show count equals the number of times a show occurs in the log (its multiplicity in the log's multiset), an independent definition of the count |
| NeoPixelStrip.ShowCountAppend | tests/test_LightstripAnimation.cpp:26 | the show count of two logs joined together is the sum of their show counts |
| NeoPixelStrip.Strip.constructor | tests/test_LightstripAnimation.cpp:16 | a new strip has the given pixel count, an empty log and no shows |
| NeoPixelStrip.Strip.Clear | tests/test_LightstripAnimation.cpp:18 | appends exactly one clear to the log; the show counter is unchanged and still agrees with the log |
| NeoPixelStrip.Strip.Fill | tests/test_LightstripAnimation.cpp:19-25 | appends exactly one fill with the given colour, first pixel and count; the show counter is unchanged |
| NeoPixelStrip.Strip.Show | tests/test_LightstripAnimation.cpp:26 | appends one show to the log and raises the show counter by one, keeping the two in agreement |
| LightstripAnimation.SweepStepAt | libraries/ParkingSensor/LightstripAnimation.cpp:8-13 | the sweep has three commands per step. Step j is a clear, then a fill of `width` pixels from pixel j, then a show |
| LightstripAnimation.SweepShowCount | libraries/ParkingSensor/LightstripAnimation.cpp:8-13 | a sweep of k steps shows exactly k times |
| LightstripAnimation.StartupSweepProperties | libraries/ParkingSensor/LightstripAnimation.cpp:6-16 | the start-up sweep shows numPixels − width + 2 times. Its final two commands are a fill of the whole strip (0, numPixels) and a show. No fill reaches past the end of the strip |
| LightstripAnimation.AnimateLightstripOn | libraries/ParkingSensor/LightstripAnimation.cpp:6-16 | for any colour and any width ≤ numPixels (defaults: blue, 2), the loop over i = 0 .. numPixels − width appends exactly the start-up sweep to the strip's log, and the show counter grows by numPixels − width + 2 |
| LightstripAnimation.BarColor | libraries/ParkingSensor/LightstripAnimation.cpp:18-26 | red if and only if distance ≤ red threshold; orange if and only if red threshold < distance ≤ orange threshold; green if and only if the distance is beyond both. A distance on a threshold takes the nearer colour |
| LightstripAnimation.Trunc | libraries/ParkingSensor/LightstripAnimation.cpp:42 | the C `(int)` conversion truncates toward zero: for x ≥ 0 the result is the largest integer not above x, and for x < 0 it is the smallest integer not below x |
| LightstripAnimation.BarLength | libraries/ParkingSensor/LightstripAnimation.cpp:40-45 | the lit count is always within [0, numPixels] and is below numPixels on a non-empty strip. It is 0 unless stop < distance < max. Between the two it is the floor of (max − distance)/(max − stop) × numPixels, a quotient taken only when max − stop > 0 |
| LightstripAnimation.BarLengthNonIncreasing | libraries/ParkingSensor/LightstripAnimation.cpp:41-42 | beyond the stop distance, the bar never gets longer as the distance grows |
| LightstripAnimation.NextFlashState | libraries/ParkingSensor/LightstripAnimation.cpp:30-51 | after a frame, the flash state is on if and only if the distance was in the stop zone and the flash state had been off. So it is negated in the stop zone and forced off beyond it |
| LightstripAnimation.ParkingBarFrame | libraries/ParkingSensor/LightstripAnimation.cpp:28-52 | a frame ends with its one and only show, and none of its fills leaves the strip. In the stop zone it fills the whole strip red when the flash state is on, and clears the strip when it is off. Beyond the stop zone it is clear, then a fill of BarLength pixels from pixel 0 in the bar's zone colour, then show |
| LightstripAnimation.AnimateParkingBar | libraries/ParkingSensor/LightstripAnimation.cpp:28-52 | appends exactly the frame to the strip's log and shows once. It returns the new flash state. The count computed by truncation and the two clamps is BarLength |
| LightstripAnimation.FlashAlternatesInStopZone | libraries/ParkingSensor/LightstripAnimation.cpp:30-50 | take a frame beyond the stop distance followed by a run of stop-zone frames. After them the flash state is on exactly when the run's length is odd, whatever the flash state was before |
| ParkingSensor.InvalidReadingFlashes | libraries/ParkingSensor/LightstripAnimation.cpp:30-38 | a reading that gives the sentinel lies in the stop zone of any stop distance ≥ −1. So the frame is the red flash (on) or the cleared strip (off), and the flash state toggles |
| ParkingSensor.TwoStopZoneFrames | tests/test_LightstripAnimation.cpp:125-137 | two stop-zone frames starting from "off" give clear, show, a red fill of all pixels, show, and the flash state ends off |
| ParkingSensor.TestConfigurationBars | tests/test_LightstripAnimation.cpp:93-147 | the test configuration is 10 pixels with thresholds 200/50/30/20. In it, 100 cm gives a green bar of 5 pixels, 50 and 40 cm an orange bar of 8, and 30 and 25 cm a red bar of 9. Each bar is cleared first and filled from pixel 0 |
| ParkingSensor.StopZoneTwice | tests/test_LightstripAnimation.cpp:125-156 | two animateParkingBar calls at any stop-zone distance (the stop threshold included) on a fresh 10-pixel strip log clear, show, red fill (0, 10), show. They show twice, and the flash state ends off |
| ParkingSensor.StartupSweepOnTenPixels | tests/test_LightstripAnimation.cpp:83-91 | the sweep of a 2-pixel window on a fresh 10-pixel strip shows 10 times. It ends with a fill of pixels (0, 10) in colour 0x0000FF, followed by a show |

## Left out

- The echo measurement (`pulseIn`, passed in as `std::function<long()>`) is an input. `DistanceCM` takes the one duration the callable returns, so the rule that the source is consulted exactly once per call holds by construction. It is not stated as a separate property.
- `delay(delayMs)` in the start-up sweep and its `delayMs` parameter are not modelled, because time is not part of the model.
- The Arduino and NeoPixel plumbing is not modelled: `Adafruit_NeoPixel`, `Arduino.h` and the `#ifdef ARDUINO` guards. The NeoPixel library is not part of this model. The strip only records the commands it receives, as the test mock does; how `fill` colours pixels is not modelled. In particular, a bar of length 0 (at or beyond `maxDistance`, and also just below it, e.g. 199 cm with maximum 200 and 10 pixels) is sent as a fill with count 0; the model, like the mock, reads this as lighting nothing, whereas the NeoPixel library treats a count of 0 as "fill to the end of the strip", so on the hardware such a bar may light the whole strip.
- `strip.Color` bit-packing is not part of this model: colours stay `(r, g, b)` triples.
- IEEE-754 `float` rounding is not covered. The constant 0.0343, the product, the quotient and the interpolation are exact reals. As a result, the clamps `numLeds < 0` and `numLeds > numPixels` never change the count in the model. The source keeps them against rounding. The strict bound of `BarLength` (fewer than numPixels pixels on a non-empty strip) does not carry over to the `float` code: with stop 20, maximum 200 and 10 pixels, the next `float` above 20.0 makes `maxDistance - distance` round to 180.0, the factor becomes 1.0 and `(int)` gives 10, so the whole strip lights.
- GetDistance.Long: the C `long` is modelled as 32 bits, the Arduino width. On a 64-bit host a negative `long` also converts to an unsigned value far above 30000, so the results are the same. The 64-bit range is not modelled.
- LightstripAnimation.AnimateLightstripOn: requires width ≤ numPixels, the inputs on which the source terminates. For a wider window, `numPixels - width` wraps as an `unsigned int`. At width = numPixels + 1 it is the largest `unsigned int`, so `i <= numPixels - width` always holds and the source loop never ends (the counter wraps back to 0). For wider windows the loop runs close to 2^16 times where `unsigned int` is 16 bits (AVR boards) and close to 2^32 times where it is 32 bits. None of these cases is modelled.
- NeoPixelStrip.Strip: pixel counts, first pixels and fill counts are unbounded naturals. The 16-bit `uint16_t` of the strip interface is not modelled. In the parking bar every value stays within the pixel count.
- `libraries/ParkingSensor/LightstripAnimation.h` holds declarations. Its default arguments for `animateLightstripOn` are kept for colour (0x0000FF) and width (2) as Dafny default parameters of `AnimateLightstripOn`; the default `delayMs` of 75 goes with the delay, which is not modelled. The test file re-implements `animateLightstripOn` and `animateParkingBar` against its mock; the re-implementation is the same logic and is covered by the model of the library code.
- Threshold ordering is not checked by the source. The model does not require it either: every member accepts any thresholds.
