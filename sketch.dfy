/** The browser side of the garden (sketch.js): the light bands and the texts
    chosen from them, the parsing of one relayed sensor line, and the game
    state that key presses, sensor lines, frame ticks and sound cues update.
    Time is counted in whole milliseconds. */
module Sketch {
  import opened Wrappers
  import opened Strings

  const SensorMin: int := 0
  const SensorMax: int := 1023
  const HealthyLow: int := 300
  const HealthyHigh: int := 700
  /** 15 seconds of healthy light win the game. */
  const WinMs: int := 15000
  /** 8 seconds outside the healthy band lose it. */
  const LoseMs: int := 8000
  const PotTag: string := "POT:"
  const ToggleToken: string := "TOGGLE_DAY_NIGHT"

  // ---------------------------------------------------------------------------
  // Light bands and the texts drawn from them
  // ---------------------------------------------------------------------------

  datatype Band = TooLittle | InRange | TooMuch

  /** The three-way band that picks the plant's colours, the health label and the
      speech bubble: below 300, 300..700, above 700. */
  function LightBand(v: int): (b: Band)
    ensures b == TooLittle <==> v < HealthyLow
    ensures b == TooMuch <==> v > HealthyHigh
  {
    if v < HealthyLow then TooLittle
    else if v <= HealthyHigh then InRange
    else TooMuch
  }

  /** The healthy band as the timers and the chime test it, 300..700 inclusive: the
      same light levels as the drawing code's middle band. */
  predicate InHealthyBand(v: int)
    ensures InHealthyBand(v) <==> LightBand(v) == InRange
  {
    v >= HealthyLow && v <= HealthyHigh
  }

  const HealthyLabelText: string := "Healthy Light Level"

  /** The text of the health label under the plant; only the middle band is called healthy. */
  function HealthLabel(b: Band): (text: string)
    ensures text == HealthyLabelText <==> b == InRange
  {
    match b
    case TooLittle => "Too Little Light"
    case InRange => HealthyLabelText
    case TooMuch => "Too Much Light"
  }

  /** The label reads "Healthy Light Level" exactly when the healthy timer is the one running. */
  lemma HealthLabelMatchesTimers(v: int)
    ensures HealthLabel(LightBand(v)) == HealthyLabelText <==> InHealthyBand(v)
  {
  }

  const WonMessage: string := "You grew the perfect plant! \U{1F389}"
  const WiltedMessage: string := "Oh no! The plant wilted \U{1F975}"

  /** The speech bubble while the game is undecided; it never reads like an outcome. */
  function BandMessage(b: Band): (msg: string)
    ensures msg != WonMessage && msg != WiltedMessage
  {
    var m := match b
      case TooLittle => "So thirsty... \U{1F629}"
      case InRange => "Feeling great! \U{1F31E}"
      case TooMuch => "Too much sun! \U{1F975}";
    assert m[0] != WonMessage[0] && m[1] != WiltedMessage[1];
    m
  }

  /** The speech bubble: a win first, then a loss, then the light band. It names an
      outcome exactly when there is one, the win taking priority. */
  function SpeechMessage(gameWon: bool, gameOver: bool, sensorValue: int): (msg: string)
    ensures msg == WonMessage <==> gameWon
    ensures msg == WiltedMessage <==> !gameWon && gameOver
  {
    assert WonMessage != WiltedMessage by { assert WonMessage[0] != WiltedMessage[0]; }
    if gameWon then WonMessage
    else if gameOver then WiltedMessage
    else BandMessage(LightBand(sensorValue))
  }

  /** While the game is undecided the bubble tells the three bands apart: it shows a
      band's text exactly when the light is in that band. */
  lemma SpeechShowsBand(gameWon: bool, gameOver: bool, sensorValue: int, b: Band)
    requires !gameWon && !gameOver
    ensures SpeechMessage(gameWon, gameOver, sensorValue) == BandMessage(b) <==> LightBand(sensorValue) == b
  {
    assert BandMessage(TooLittle)[0] != BandMessage(InRange)[0];
    assert BandMessage(TooLittle)[0] != BandMessage(TooMuch)[0];
    assert BandMessage(InRange)[0] != BandMessage(TooMuch)[0];
  }

  // ---------------------------------------------------------------------------
  // One relayed sensor line
  // ---------------------------------------------------------------------------

  /** p5's constrain on integers. */
  function Clamp(n: int, lo: int, hi: int): (r: int)
    requires lo <= hi
    ensures lo <= r <= hi
    ensures lo <= n <= hi ==> r == n
    ensures n < lo ==> r == lo
    ensures n > hi ==> r == hi
  {
    if n < lo then lo else if n > hi then hi else n
  }

  datatype SensorEvent = LightLevel(value: int) | DayNightToggle

  /** Text without a colon never contains "POT:". */
  lemma NoColonNoPotTag(s: string)
    requires ':' !in s
    ensures !Contains(s, PotTag)
  {
    forall i | 0 <= i <= |s| - |PotTag|
      ensures !OccursAt(s, PotTag, i)
    {
      assert s[i + 3] in s;
      assert s[i..i + |PotTag|][3] == s[i + 3];
    }
  }

  lemma ToggleHasNoPotTag()
    ensures !Contains(ToggleToken, PotTag)
  {
    assert ':' !in ToggleToken;
    NoColonNoPotTag(ToggleToken);
  }

  /** What a (trimmed) line does to the garden: a light level, a day/night toggle, or nothing. */
  function ParseLine(line: string): (e: Option<SensorEvent>)
    ensures e.Some? && e.value.LightLevel? ==>
      Contains(line, PotTag) && SensorMin <= e.value.value <= SensorMax
    ensures e == Some(DayNightToggle) <==> line == ToggleToken
  {
    ToggleHasNoPotTag();
    if Contains(line, PotTag) then
      var parts := Split(line, ':');
      if |parts| == 2 && ParseInteger(parts[1]).Some? then
        Some(LightLevel(Clamp(ParseInteger(parts[1]).value, SensorMin, SensorMax)))
      else
        None
    else if line == ToggleToken then
      Some(DayNightToggle)
    else
      None
  }

  /** A line made of text ending in "POT", one colon and an integer sets the
      light level to that integer clamped to 0..1023, whatever comes before "POT". */
  lemma ParseLineLevel(pre: string, num: string)
    requires ':' !in pre
    requires |pre| >= 3 && pre[|pre| - 3..] == "POT"
    requires IsIntegerText(num)
    ensures ParseLine(pre + ":" + num)
         == Some(LightLevel(Clamp(ParseInteger(num).value, SensorMin, SensorMax)))
  {
    var line := pre + ":" + num;
    assert line[|pre| - 3..|pre| + 1] == PotTag;
    assert OccursAt(line, PotTag, |pre| - 3);
    assert ':' !in num by {
      assert forall i :: 1 <= i < |num| ==> num[1..][i - 1] == num[i];
    }
    SplitAtOnlySeparator(pre, ':', num);
  }

  /** Conversely, a line that sets the light level contains "POT:" and has exactly
      one colon; the text after that colon is an integer whose clamp is the level. */
  lemma ParseLineLevelShape(line: string)
    requires ParseLine(line).Some? && ParseLine(line).value.LightLevel?
    ensures Contains(line, PotTag) && Count(line, ':') == 1
    ensures var parts := Split(line, ':');
      line == parts[0] + ":" + parts[1] && IsIntegerText(parts[1]) &&
      ParseLine(line).value.value == Clamp(ParseInteger(parts[1]).value, SensorMin, SensorMax)
  {
    var parts := Split(line, ':');
    LevelLineParts(line);
    SplitJoin(line, ':');
    JoinTwo(parts, ':');
  }

  /** The branch of ParseLine that yields a level, stated in terms of the split line. */
  lemma LevelLineParts(line: string)
    requires ParseLine(line).Some? && ParseLine(line).value.LightLevel?
    ensures var parts := Split(line, ':');
      |parts| == 2 && ParseInteger(parts[1]).Some? &&
      ParseLine(line).value.value == Clamp(ParseInteger(parts[1]).value, SensorMin, SensorMax)
  {
  }

  /** A line with two or more colons ("POT:5:6") is ignored. */
  lemma ParseLineManyColons(line: string)
    requires Count(line, ':') >= 2
    ensures ParseLine(line) == None
  {
    assert line != ToggleToken by { assert ':' !in ToggleToken; }
  }

  /** The device's encoding round-trips: "POT:" followed by the decimal text of any
      integer reads back as that integer clamped to 0..1023. */
  lemma ParsePotReading(n: int)
    ensures ParseLine(PotTag + IntegerText(n)) == Some(LightLevel(Clamp(n, SensorMin, SensorMax)))
  {
    assert PotTag + IntegerText(n) == "POT" + ":" + IntegerText(n);
    ParseIntegerText(n);
    ParseLineLevel("POT", IntegerText(n));
  }

  // ---------------------------------------------------------------------------
  // The game state
  // ---------------------------------------------------------------------------

  datatype Scene = Start | Play | End

  /** The last band the chime logic saw: "" before any, then 'healthy' or 'other'. */
  datatype HealthState = Unrecorded | Healthy | Other

  /** The bell chord at the end: C6-E6-G6 after a win, C4-E4-G4 otherwise. */
  datatype Chord = HighChord | LowChord

  /** An abstract sound cue, emitted instead of playing audio. */
  datatype Cue = EndChord(chord: Chord) | HealthyChime

  /** The band the chime logic records: never the initial "", and healthy exactly
      when the plant is drawn in its middle band. */
  function HealthOf(v: int): (h: HealthState)
    ensures h != Unrecorded
    ensures h == Healthy <==> LightBand(v) == InRange
  {
    if InHealthyBand(v) then Healthy else Other
  }

  /** The only scene changes the game has: start to play, play to end, end to start. */
  predicate AllowedTransition(from: Scene, to: Scene) {
    from == to || (from == Start && to == Play) || (from == Play && to == End) ||
    (from == End && to == Start)
  }

  class Garden {
    var sensorValue: int
    var dayMode: bool
    var scene: Scene
    var gameStarted: bool
    var gameWon: bool
    var gameOver: bool
    var healthyTimer: int
    var dangerTimer: int
    var totalTime: int
    var lastTimeCheck: int
    var soundInitialized: bool
    var lastHealthState: HealthState
    var endSoundPlayed: bool

    /** End chords emitted since the last begin or restart. */
    ghost var endChords: nat
    /** The clock reading at the last begin or restart. */
    ghost var clockAtReset: int

    ghost predicate Valid()
      reads this
    {
      SensorMin <= sensorValue <= SensorMax &&
      0 <= healthyTimer && 0 <= dangerTimer &&
      (healthyTimer == 0 || dangerTimer == 0) &&
      healthyTimer <= totalTime && dangerTimer <= totalTime &&
      totalTime == lastTimeCheck - clockAtReset &&
      !(gameWon && gameOver) &&
      (scene == End <==> gameWon || gameOver) &&
      (gameWon <==> healthyTimer >= WinMs) &&
      (gameOver <==> dangerTimer >= LoseMs) &&
      (gameStarted <==> scene != Start) &&
      (endSoundPlayed ==> scene == End) &&
      endChords == (if endSoundPlayed then 1 else 0)
    }

    /** A new game has no outcome, zero timers, the clock at `now` and no sound history. */
    ghost predicate FreshGame(now: int)
      reads this
    {
      !gameWon && !gameOver &&
      healthyTimer == 0 && dangerTimer == 0 && totalTime == 0 &&
      lastTimeCheck == now && lastHealthState == Unrecorded && !endSoundPlayed
    }

    /** The values the sketch's globals start with (lastTimeCheck, undefined there, is 0). */
    constructor ()
      ensures Valid()
      ensures sensorValue == 0 && dayMode && scene == Start && !gameStarted
      ensures FreshGame(0) && !soundInitialized
    {
      sensorValue, dayMode, scene, gameStarted := 0, true, Start, false;
      gameWon, gameOver := false, false;
      healthyTimer, dangerTimer, totalTime, lastTimeCheck := 0, 0, 0, 0;
      soundInitialized, lastHealthState, endSoundPlayed := false, Unrecorded, false;
      endChords, clockAtReset := 0, 0;
    }

    /** The end of setupAudio: from now on the sound logic runs. */
    method SetupAudio()
      requires Valid()
      modifies this`soundInitialized
      ensures Valid() && soundInitialized
    {
      soundInitialized := true;
    }

    /** Applies one sensor event: a light level replaces the sensor value, the
        toggle flips the day mode; nothing else is touched. */
    method Apply(e: SensorEvent)
      requires Valid()
      requires e.LightLevel? ==> SensorMin <= e.value <= SensorMax
      modifies this`sensorValue, this`dayMode
      ensures Valid()
      ensures e.LightLevel? ==> sensorValue == e.value && dayMode == old(dayMode)
      ensures e.DayNightToggle? ==> sensorValue == old(sensorValue) && dayMode == !old(dayMode)
    {
      match e
      case LightLevel(v) =>
        sensorValue := v;
      case DayNightToggle =>
        dayMode := !dayMode;
    }

    /** handleSerialData: the event of a line, if it has one, is applied; any other
        line is ignored. */
    method HandleLine(data: string)
      requires Valid()
      modifies this`sensorValue, this`dayMode
      ensures Valid()
      ensures match ParseLine(data)
        case None => sensorValue == old(sensorValue) && dayMode == old(dayMode)
        case Some(LightLevel(v)) => sensorValue == v && dayMode == old(dayMode)
        case Some(DayNightToggle) => sensorValue == old(sensorValue) && dayMode == !old(dayMode)
    {
      var e := ParseLine(data);
      if e.Some? {
        Apply(e.value);
      }
    }

    /** keyPressed: Space begins a game from the start scene, r or R restarts from
        the end scene; both reset timers, flags and sound history. Any other key,
        or a key in another scene, changes nothing. */
    method KeyPressed(key: char, now: int)
      requires Valid()
      modifies this`scene, this`gameStarted, this`gameWon, this`gameOver,
               this`healthyTimer, this`dangerTimer, this`totalTime, this`lastTimeCheck,
               this`lastHealthState, this`endSoundPlayed, this`endChords, this`clockAtReset
      ensures Valid()
      ensures AllowedTransition(old(scene), scene)
      ensures old(scene) == Start && key == ' ' ==> scene == Play && FreshGame(now)
      ensures old(scene) == End && (key == 'r' || key == 'R') ==> scene == Start && FreshGame(now)
      ensures !(old(scene) == Start && key == ' ') && !(old(scene) == End && (key == 'r' || key == 'R'))
              ==> unchanged(this)
    {
      if scene == Start && key == ' ' {
        scene := Play;
        gameStarted := true;
        ResetRound(now);
      }
      if scene == End && (key == 'r' || key == 'R') {
        scene := Start;
        gameStarted := false;
        ResetRound(now);
      }
    }

    /** The reset shared by begin and restart: flags, timers, clock and sound history. */
    method ResetRound(now: int)
      modifies this`gameWon, this`gameOver, this`healthyTimer, this`dangerTimer,
               this`totalTime, this`lastTimeCheck, this`lastHealthState,
               this`endSoundPlayed, this`endChords, this`clockAtReset
      ensures FreshGame(now) && endChords == 0 && clockAtReset == now
    {
      gameWon, gameOver := false, false;
      healthyTimer, dangerTimer, totalTime := 0, 0, 0;
      lastTimeCheck := now;
      lastHealthState, endSoundPlayed := Unrecorded, false;
      endChords, clockAtReset := 0, now;
    }

    /** The timer block of runGame, reached only in the play scene and only while
        the game is undecided. `now` is the clock, which never runs backwards. */
    method Tick(now: int)
      requires Valid() && lastTimeCheck <= now
      modifies this`scene, this`gameWon, this`gameOver, this`healthyTimer, this`dangerTimer,
               this`totalTime, this`lastTimeCheck
      ensures Valid()
      ensures AllowedTransition(old(scene), scene)
      ensures old(scene) != Play || old(gameWon) || old(gameOver) ==> unchanged(this)
      ensures old(scene) == Play && !old(gameWon) && !old(gameOver) ==>
        var delta := now - old(lastTimeCheck);
        lastTimeCheck == now && totalTime == old(totalTime) + delta &&
        (if InHealthyBand(sensorValue)
         then healthyTimer == old(healthyTimer) + delta && dangerTimer == 0
         else dangerTimer == old(dangerTimer) + delta && healthyTimer == 0) &&
        gameWon == (healthyTimer >= WinMs) && gameOver == (dangerTimer >= LoseMs) &&
        scene == (if gameWon || gameOver then End else Play)
    {
      if scene == Play && !gameWon && !gameOver {
        var delta := now - lastTimeCheck;
        lastTimeCheck := now;
        totalTime := totalTime + delta;
        if InHealthyBand(sensorValue) {
          healthyTimer := healthyTimer + delta;
          dangerTimer := 0;
        } else {
          dangerTimer := dangerTimer + delta;
          healthyTimer := 0;
        }
        if healthyTimer >= WinMs {
          gameWon := true;
          scene := End;
        }
        if dangerTimer >= LoseMs {
          gameOver := true;
          scene := End;
        }
      }
    }

    /** updateSoundState, run every frame: once the game has ended it emits the end
        chord a single time (high after a win, low after a loss); otherwise it emits
        the chime when the light has just entered the healthy band. */
    method UpdateSound() returns (cue: Option<Cue>)
      requires Valid()
      modifies this`endSoundPlayed, this`lastHealthState, this`endChords
      ensures Valid()
      ensures !soundInitialized ==> cue == None && unchanged(this)
      ensures soundInitialized && scene == End && !old(endSoundPlayed) ==>
        cue == Some(EndChord(if gameWon then HighChord else LowChord)) &&
        endSoundPlayed && lastHealthState == old(lastHealthState)
      ensures soundInitialized && !(scene == End && !old(endSoundPlayed)) ==>
        endSoundPlayed == old(endSoundPlayed) && lastHealthState == HealthOf(sensorValue) &&
        (cue == Some(HealthyChime) <==> old(lastHealthState) != Healthy && InHealthyBand(sensorValue)) &&
        (cue == None || cue == Some(HealthyChime))
      ensures cue.Some? && cue.value.EndChord? ==> old(endChords) == 0 && endChords == 1
    {
      if !soundInitialized {
        return None;
      }
      if scene == End && !endSoundPlayed {
        cue := Some(EndChord(if gameWon then HighChord else LowChord));
        endSoundPlayed := true;
        endChords := endChords + 1;
        return;
      }
      var state := HealthOf(sensorValue);
      if state != lastHealthState && state == Healthy {
        cue := Some(HealthyChime);
      } else {
        cue := None;
      }
      lastHealthState := state;
    }
  }
}
