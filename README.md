# Synth Garden, modelled in Dafny

Synth Garden is a small game. A potentiometer on a microcontroller sets the sunlight:
the device prints `POT:<n>` lines over serial, and it can also send `TOGGLE_DAY_NIGHT`.
A Node relay (`server.js`) picks the serial port, trims every line it reads and
broadcasts it to the browsers. The browser sketch (`sketch.js`) turns a line into a
light level or a day/night flip, and ignores any other line. During play the game's
timers advance on every frame. Keeping the light in the healthy band
(300..700) for 15 seconds grows the plant and wins. Keeping it outside the band for
8 seconds wilts the plant and loses. Sound cues mark entering the healthy band and the
end of a game.

The model has five files:

- `wrappers.dfy`: the `Option` type.
- `strings.dfy` (module `Strings`): the JavaScript string operations the game relies on.
  These are `trim` with the ECMAScript whitespace set, `includes`, `split` on one
  character, ASCII `toLowerCase`, and the signed decimal integers that
  `isNaN`/`parseInt` accept.
- `sketch.dfy` (module `Sketch`): the browser side.
  - The light bands and the label and speech texts chosen from them, as functions.
  - The parsing of one relayed line, as the function `ParseLine`.
  - The class `Garden`. Its fields are the sketch's globals. Its methods are
    `HandleLine`, `KeyPressed`, `Tick` and `UpdateSound`, and they update those fields
    in place.
- `server.dfy` (module `Server`): the port selection loop over a given port listing,
  and the trim-and-forward rule as a function.
- `scenarios.dfy` (module `Scenarios`): the path from device to garden, parsing
  examples (an in-range reading, a negative reading, a reading above the range, a
  non-number, three parts, the toggle, other text), and whole games played through the
  `Garden` methods' contracts.

Time is whole milliseconds and the thresholds are 15000 and 8000. The sketch adds
`(now - last) / 1000` seconds on each frame, as a floating-point number. In exact
arithmetic those per-frame seconds telescope to the elapsed milliseconds divided by
1000, which is what the model counts. With floating-point rounding the sketch's sum can
fall just short of the threshold, so the sketch can cross it one frame later than the
model does. `Tick(now)` takes the clock reading as a parameter.

`Garden.Valid()` is the invariant that every method keeps:

- the sensor value is in 0..1023;
- the two timers are never both non-zero;
- each timer is at most the total time, and the total time is the clock advance since
  the last begin or restart;
- the end scene holds exactly when the game is won or lost, and never both;
- won means the healthy timer reached 15 s, and lost means the danger timer reached 8 s;
- the end chord has been emitted once exactly when `endSoundPlayed` is set, and only in
  the end scene.

## Model

| member | source | states |
|---|---|---|
| Sketch.LightBand | sketch.js:258-270 | Too little light exactly below 300, too much exactly above 700, in range otherwise |
| Sketch.InHealthyBand | sketch.js:119 | The 300..700 test of the timers holds exactly when the drawing code puts the light in its middle band |
| Sketch.HealthOf | sketch.js:154 | The band the chime logic records is never the initial empty state, and is healthy exactly in the middle band |
| Sketch.HealthLabel | sketch.js:312-321 | The label is "Healthy Light Level" exactly for the middle band |
| Sketch.HealthLabelMatchesTimers | sketch.js:312-321 | The label reads "Healthy Light Level" if and only if the light is in the healthy band |
| Sketch.BandMessage | sketch.js:290-292 | No band's text is the win text or the wilt text |
| Sketch.SpeechMessage | sketch.js:287-292 | The bubble shows the win text iff the game is won, and the wilt text iff the game is lost and not won |
| Sketch.SpeechShowsBand | sketch.js:287-292 | While the game is undecided, the bubble shows a band's text exactly when the light is in that band |
| Sketch.Clamp | sketch.js:209 | `constrain`: the result lies in the bounds, equals the input inside them and the nearer bound outside them |
| Sketch.ParseLine | sketch.js:205-214 | A line yields a light level only if it contains "POT:", and the level is in 0..1023; it yields the toggle if and only if it is exactly TOGGLE_DAY_NIGHT |
| Sketch.ParseLineLevel | sketch.js:206-209 | Text ending in "POT" without a colon, then one colon, then an integer, sets the level to that integer clamped to 0..1023 |
| Sketch.ParseLineLevelShape | sketch.js:206-209 | Conversely, a line that sets the level contains "POT:" and exactly one colon; after the colon comes an integer whose clamp is the level |
| Sketch.ParseLineManyColons | sketch.js:207-208 | A line with two or more colons, such as POT:5:6, is ignored |
| Sketch.ParsePotReading | sketch.js:206-209 | "POT:" followed by the decimal text of any integer n yields the level n clamped to 0..1023 |
| Sketch.NoColonNoPotTag | sketch.js:206 | Text without a colon never contains "POT:", so the toggle line cannot take the level branch |
| Sketch.Garden.constructor | sketch.js:2-31 | The start values: sensor 0, day mode, start scene, no outcome, zero timers, no sound history, audio not ready |
| Sketch.Garden.SetupAudio | sketch.js:85 | After audio setup the sound logic runs; the invariant holds |
| Sketch.Garden.Apply | sketch.js:209-212 | A level replaces the sensor value; the toggle flips the day mode; nothing else changes |
| Sketch.Garden.HandleLine | sketch.js:205-214 | The line's parsed event is applied, and an unparsed line changes nothing; only the sensor value and the day mode may change, and the invariant holds |
| Sketch.Garden.KeyPressed | sketch.js:168-197 | Space in the start scene goes to play with a fresh round; r or R in the end scene goes to start with a fresh round; any other key or scene changes nothing. The sensor value and day mode are never touched, and no scene change other than start to play, play to end and end to start occurs |
| Sketch.Garden.ResetRound | sketch.js:171-180 | Both flags are cleared, all three timers are zero, the clock is `now` and the sound history is cleared |
| Sketch.Garden.Tick | sketch.js:113-134 | In play and undecided: the total grows by delta; in the band the healthy timer grows by delta and the danger timer is zeroed, and the reverse outside it; won iff healthy >= 15 s, lost iff danger >= 8 s, end scene iff either. Otherwise nothing changes. The invariant holds, so the timers stay exclusive and at most one outcome is reached |
| Sketch.Garden.UpdateSound | sketch.js:138-159 | Nothing before audio setup. On the first call in the end scene it emits the end chord, high after a win and low after a loss, and never again until a new round. Every other call records the band, and the chime sounds iff the light has just entered the healthy band |
| Strings.Trim | server.js:61 | `trim`: the result has no whitespace at either end and is no longer than the input |
| Strings.TrimShape | server.js:61 | The input is leading whitespace, then the result, then trailing whitespace |
| Strings.TrimKept | server.js:61 | The result is the slice of the input that follows its leading whitespace |
| Strings.TrimDropsTrailing | server.js:61 | Everything after the kept slice is whitespace |
| Strings.LeadingSpace | server.js:61 | The count of leading whitespace: all of it is whitespace and the next character is not |
| Strings.TrailingSpace | server.js:61 | The count of trailing whitespace: all of it is whitespace and the character before it is not |
| Strings.TrimUnique | server.js:61 | Whitespace around a trimmed string is exactly what trim removes |
| Strings.TrimIdempotent | sketch.js:36 | Trimming a trimmed line again changes nothing |
| Strings.Contains | sketch.js:206 | `includes` holds iff the substring occurs at some index |
| Strings.Count | sketch.js:207 | The number of separators is zero iff there is none |
| Strings.Split | sketch.js:207 | `split`: one more part than separators, and no part contains the separator |
| Strings.SplitJoin | sketch.js:207 | Joining the parts with the separator gives back the line |
| Strings.SplitAtOnlySeparator | sketch.js:207-208 | Text with exactly one separator splits into the text before it and the text after it |
| Strings.ToLowerAscii | server.js:33 | Same length; each ASCII capital becomes its small letter, and every other character is kept |
| Strings.ParseInteger | sketch.js:208-209 | A number is read exactly when the text is an optional sign followed by decimal digits |
| Strings.IntegerText | sketch.js:208-209 | The decimal spelling of an integer is an accepted number text |
| Strings.ParseIntegerText | sketch.js:208-209 | Reading the decimal spelling of any integer gives that integer back |
| Server.FindArduinoPort | server.js:26-43 | The result is the path of the first port in list order that passes the test, or the fallback path when none passes (including an empty list). It is always the fallback or a listed path |
| Server.Truthy | server.js:32 | A string field tests true exactly when it is present and not empty |
| Server.IsArduino | server.js:31-35 | Given a manufacturer, vendor id 2341 makes a port pass; without vendor id 2341, a passing port's manufacturer contains "arduino" after lower-casing |
| Server.VendorIdNeedsManufacturer | server.js:31-35 | A port without a manufacturer never passes, whatever its vendor id |
| Server.ManufacturerMentioningArduino | server.js:31-35 | A manufacturer containing "arduino" in any ASCII letter case passes, whatever the vendor id |
| Server.Relay | server.js:60-63 | Every line is forwarded under "arduinoData", trimmed, and never dropped or validated |
| Server.RelayKeepsText | server.js:61-63 | The payload is the line with only its surrounding whitespace removed |
| Server.RelayedPayloadStaysTrimmed | sketch.js:36 | The browser's second trim of a payload changes nothing |
| Scenarios.DeviceReadingReachesGarden | server.js:60-63 | "POT:<n>" followed by a carriage return reaches the game as the level n clamped to 0..1023 |
| Scenarios.ParseReadingInRange | sketch.js:206-209 | POT:450 sets the level to 450 |
| Scenarios.ParseNegativeReadingClamped | sketch.js:209 | POT:-5 sets the level to 0 |
| Scenarios.ParseReadingAboveRangeClamped | sketch.js:209 | POT:9999 sets the level to 1023 |
| Scenarios.ParseNonNumberIgnored | sketch.js:208 | POT:abc is ignored |
| Scenarios.ParseThreePartsIgnored | sketch.js:208 | POT:5:6 is ignored |
| Scenarios.ParseToggle | sketch.js:211-212 | TOGGLE_DAY_NIGHT yields the day/night toggle |
| Scenarios.ParseOtherTextIgnored | sketch.js:205-214 | Any line that neither contains "POT:" nor is exactly TOGGLE_DAY_NIGHT is ignored |
| Scenarios.ParseHelloIgnored | sketch.js:205-214 | hello is ignored |

The `Scenarios` methods (`ScenarioWin`, `ScenarioLossAndRestart`, `ScenarioBandChange`,
`ScenarioZeroDeltaTick`, `ScenarioSoundCues`) are clients. They call the `Garden`
methods and check the outcomes with assertions that follow from the contracts alone.

Three behaviours of the code worth knowing:

- The line handler tests `includes("POT:")`, so "xPOT:5" also sets the level. It is not
  a prefix test (see `ParseLineLevel`, whose `pre` may be any colon-free text ending in
  "POT").
- A frame with no elapsed time is not a no-op. The timer of the band the light has just
  left is still reset to zero (`ScenarioZeroDeltaTick`).
- A `+` sign in front of the number is accepted, as `isNaN` and `parseInt` accept it.

## Left out

- Rendering is left out. This covers every `draw*` function, the butterflies, stars,
  sky angle and background arrays, `plantHeight` from the float `map`, and the meters.
  These are canvas calls and floating-point geometry.
- Audio synthesis and Tone.js (sketch.js:52-86, 147, 156, 163-165) are left out. The
  model emits abstract cues (`Cue`) instead of playing notes.
- Socket.io, Express, opening the serial port and its events, `SerialPort.list()` and
  the promise plumbing are left out, because they are I/O. `FindArduinoPort` works on
  a given listing, and `Relay` returns the emission instead of broadcasting it.
- Console logging is left out, and so are `saveCanvas` (sketch.js:200-202) and the
  audio-context start in `keyPressed`.
- `draw` calls `updateSoundState` on every frame, and then `runGame` only in the play
  scene (sketch.js:92-96). That ordering is left to the caller (see
  `ScenarioSoundCues`). It is not a method of its own.
- Sketch.ParseLine: JavaScript number spellings outside an optional sign plus decimal
  digits are not modelled. These include `"1.5"`, `"1e3"`, `"0x10"` and digits with
  surrounding blanks, which JavaScript accepts with the value `parseInt` reads. They
  also include the empty payload of `"POT:"`, which passes `isNaN` in JavaScript and
  sets the sensor value to NaN. The model ignores all of these lines.
- Sketch.Garden.Tick: the clock is whole milliseconds and is required never to run
  backwards (`millis()` is monotone). Sub-millisecond readings and float rounding are
  not modelled.
- Sketch.Garden.constructor: `lastTimeCheck` is undefined in the sketch until the first
  Space. The model starts it at 0. It is never read before Space sets it, because `Tick`
  only runs in play.
- Strings.ToLowerAscii: only ASCII letters are lower-cased. Full Unicode
  `toLowerCase` is not modelled.
- Strings are sequences of Unicode code points, not UTF-16 code units. The emoji in
  the speech texts are single characters here.
