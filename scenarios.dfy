/** Whole-system facts and client scenarios: what a reading sent by the device
    does once it has crossed the relay; parsing examples (an in-range reading, a
    negative reading, a reading above the range, a non-number, three parts, the
    toggle, other text); and games played through the Garden's methods using only
    their contracts. */
module Scenarios {
  import opened Wrappers
  import opened Strings
  import opened Sketch
  import Server

  /** A serial line "POT:<n>" that arrives with a trailing carriage return (the
      line parser splits on newline only) reaches the game as n clamped to
      0..1023, after the relay's trim and the browser's own trim. */
  lemma DeviceReadingReachesGarden(n: int)
    ensures var line := PotTag + IntegerText(n);
      Trim(Server.Relay(line + "\r").payload) == line &&
      ParseLine(line) == Some(LightLevel(Clamp(n, SensorMin, SensorMax)))
  {
    var line := PotTag + IntegerText(n);
    assert IsTrimmed(line) by {
      assert line[0] == 'P';
      assert line[|line| - 1] == IntegerText(n)[|IntegerText(n)| - 1];
      assert IntegerText(n) == NatText(if n < 0 then -n else n) || IntegerText(n)[1..] == NatText(-n);
    }
    assert AllSpace("\r");
    assert [] + line + "\r" == line + "\r";
    TrimUnique([], line, "\r");
    TrimIdempotent(line + "\r");
    ParsePotReading(n);
  }

  // Parsing examples: an in-range reading, a negative reading, a reading above the
  // range, a non-number, three parts, the toggle, other text.

  lemma ParseReadingInRange()
    ensures ParseLine("POT:450") == Some(LightLevel(450))
  {
    ParsePotReading(450);
    assert IntegerText(450) == "450";
    assert PotTag + "450" == "POT:450";
  }

  lemma ParseNegativeReadingClamped()
    ensures ParseLine("POT:-5") == Some(LightLevel(0))
  {
    ParsePotReading(-5);
    assert IntegerText(-5) == "-5";
    assert PotTag + "-5" == "POT:-5";
  }

  lemma ParseReadingAboveRangeClamped()
    ensures ParseLine("POT:9999") == Some(LightLevel(1023))
  {
    assert "POT:9999" == "POT" + ":" + "9999";
    assert "9999"[..3] == "999" && "999"[..2] == "99" && "99"[..1] == "9" && "9"[..0] == "";
    assert DigitsValue("9999") == 9999;
    ParseLineLevel("POT", "9999");
  }

  lemma ParseNonNumberIgnored()
    ensures ParseLine("POT:abc") == None
  {
    assert !IsIntegerText("abc") by { assert !IsDigit("abc"[0]); }
    assert "POT:abc" == "POT" + ":" + "abc";
    SplitAtOnlySeparator("POT", ':', "abc");
  }

  lemma ParseThreePartsIgnored()
    ensures ParseLine("POT:5:6") == None
  {
    assert Count("POT:5:6", ':') == 2;
    ParseLineManyColons("POT:5:6");
  }

  /** The toggle line flips day and night. */
  lemma ParseToggle()
    ensures ParseLine("TOGGLE_DAY_NIGHT") == Some(DayNightToggle)
  {
  }

  /** A line that neither contains "POT:" nor is the toggle is ignored. */
  lemma ParseOtherTextIgnored(line: string)
    requires !Contains(line, PotTag) && line != ToggleToken
    ensures ParseLine(line) == None
  {
  }

  lemma ParseHelloIgnored()
    ensures ParseLine("hello") == None
  {
    NoColonNoPotTag("hello");
    ParseOtherTextIgnored("hello");
  }

  /** Sends the device's "POT:<level>" line to the garden. */
  method SendReading(g: Garden, level: int)
    requires g.Valid()
    modifies g`sensorValue, g`dayMode
    ensures g.Valid() && g.sensorValue == Clamp(level, SensorMin, SensorMax)
    ensures g.dayMode == old(g.dayMode)
  {
    ParsePotReading(level);
    g.HandleLine(PotTag + IntegerText(level));
  }

  /** Healthy light for 15 seconds or more wins. */
  method ScenarioWin(level: int, at: int)
    requires InHealthyBand(level) && at >= WinMs
  {
    var g := new Garden();
    g.KeyPressed(' ', 0);
    assert g.scene == Play;
    SendReading(g, level);
    g.Tick(at);
    assert g.gameWon && !g.gameOver && g.scene == End;
  }

  /** Light outside the band for 8 seconds loses; Space is then ignored and R
      restarts without touching the light reading. */
  method ScenarioLossAndRestart(level: int)
    requires !InHealthyBand(level)
  {
    var g := new Garden();
    g.KeyPressed(' ', 0);
    SendReading(g, level);
    g.Tick(LoseMs);
    assert g.gameOver && !g.gameWon && g.scene == End;
    var reading := g.sensorValue;
    g.KeyPressed(' ', 9000);
    assert g.scene == End && g.gameOver;
    g.KeyPressed('R', 9000);
    assert g.scene == Start && !g.gameOver && g.healthyTimer == 0 && g.dangerTimer == 0;
    assert g.sensorValue == reading;
  }

  /** Leaving the band restarts the other timer: 10 s healthy, then 1 s outside,
      leaves the danger timer at 1 s and the game still running. */
  method ScenarioBandChange(good: int, bad: int)
    requires InHealthyBand(good) && !InHealthyBand(bad)
  {
    var g := new Garden();
    g.KeyPressed(' ', 0);
    SendReading(g, good);
    g.Tick(10000);
    SendReading(g, bad);
    g.Tick(11000);
    assert g.healthyTimer == 0 && g.dangerTimer == 1000 && g.scene == Play;
    assert g.totalTime == 11000;
  }

  /** A tick with no elapsed time still zeroes the timer of the band just left. */
  method ScenarioZeroDeltaTick(good: int, bad: int)
    requires InHealthyBand(good) && !InHealthyBand(bad)
  {
    var g := new Garden();
    g.KeyPressed(' ', 0);
    SendReading(g, bad);
    g.Tick(1000);
    assert g.dangerTimer == 1000;
    SendReading(g, good);
    g.Tick(1000);
    assert g.dangerTimer == 0 && g.healthyTimer == 0;
  }

  /** The chime sounds on entering the healthy band and not again while the light
      stays there; the win chord sounds once. */
  method ScenarioSoundCues(level: int)
    requires InHealthyBand(level)
  {
    var g := new Garden();
    g.SetupAudio();
    g.KeyPressed(' ', 0);
    SendReading(g, level);
    var c := g.UpdateSound();
    assert c == Some(HealthyChime);
    c := g.UpdateSound();
    assert c == None;
    g.Tick(WinMs);
    c := g.UpdateSound();
    assert c == Some(EndChord(HighChord));
    c := g.UpdateSound();
    assert c == None;
  }
}
