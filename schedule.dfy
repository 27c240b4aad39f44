/** The clock's time comparisons. Every comparison is an exact match of
    strings built with `strftime`: the alarm's due check, the minute-change
    test that drives the display refresh and the countdowns, the hourly
    configuration reload and the pin-9 off timer's key. */
module Schedule {

  import opened Decimal
  import opened AlarmFile

  predicate ValidTime(h: nat, m: nat) { h < 24 && m < 60 }

  /** `now.strftime("%-H%-M")`: hour then minute, neither padded, no separator. */
  function CheckTime(h: nat, m: nat): string
  {
    NatToString(h) + NatToString(m)
  }

  /** `now.strftime("%H%M")`: both padded to two digits. */
  function AltCheckTime(h: nat, m: nat): (s: string)
    requires ValidTime(h, m)
    ensures |s| == 4 && AllDigits(s)
    ensures 10 <= h && 10 <= m ==> s == CheckTime(h, m)
  {
    Pad2(h) + Pad2(m)
  }

  /** `str(alarm_hour) + str(alarm_min)`. */
  function AlarmKey(c: AlarmConfig): string
  {
    IntToString(c.hour) + IntToString(c.minute)
  }

  /** The due check of the main loop: the alarm is set and one of the two
      time strings equals the alarm key. */
  predicate IsDue(c: AlarmConfig, h: nat, m: nat)
    requires ValidTime(h, m)
  {
    c.enabled && (CheckTime(h, m) == AlarmKey(c) || AltCheckTime(h, m) == AlarmKey(c))
  }

  predicate ValidConfig(c: AlarmConfig) { 0 <= c.hour < 24 && 0 <= c.minute < 60 }

  /** For an in-range configuration the padded form adds nothing: the alarm
      is due exactly at the times whose unpadded key equals the alarm's. */
  lemma {:induction false} DueIff(c: AlarmConfig, h: nat, m: nat)
    requires ValidTime(h, m) && ValidConfig(c)
    ensures IsDue(c, h, m) <==> c.enabled && CheckTime(h, m) == CheckTime(c.hour, c.minute)
  {
    var ah: nat, am: nat := c.hour, c.minute;
    assert AlarmKey(c) == CheckTime(ah, am);
    if AltCheckTime(h, m) == AlarmKey(c) {
      assert |NatToString(ah)| == 2 && |NatToString(am)| == 2;
      var key := AlarmKey(c);
      assert key[..2] == NatToString(ah) == Pad2(ah) && key[2..] == NatToString(am) == Pad2(am);
      assert key[..2] == Pad2(h) && key[2..] == Pad2(m);
      Pad2Injective(h, ah);
      Pad2Injective(m, am);
    }
  }

  /** A set alarm is due at its own hour and minute. */
  lemma DueAtAlarmTime(c: AlarmConfig)
    requires ValidConfig(c) && c.enabled
    ensures IsDue(c, c.hour, c.minute)
  {
    assert AlarmKey(c) == CheckTime(c.hour, c.minute);
  }

  /** An alarm that is not set is never due. */
  lemma NeverDueWhenOff(c: AlarmConfig, h: nat, m: nat)
    requires ValidTime(h, m) && !c.enabled
    ensures !IsDue(c, h, m)
  {
  }

  /** The key has no separator: an alarm set for 1:11 is also due at 11:01,
      and one set for 11:01 also at 1:11. */
  lemma KeyCollision()
    ensures IsDue(AlarmConfig(1, 11, true), 1, 11) && IsDue(AlarmConfig(1, 11, true), 11, 1)
    ensures IsDue(AlarmConfig(11, 1, true), 11, 1) && IsDue(AlarmConfig(11, 1, true), 1, 11)
  {
    assert NatToString(11) == "11" && NatToString(1) == "1";
    assert CheckTime(1, 11) == "111" && CheckTime(11, 1) == "111";
    assert AlarmKey(AlarmConfig(1, 11, true)) == "111";
    assert AlarmKey(AlarmConfig(11, 1, true)) == "111";
  }

  /** The main loop's `lastMin`: a minute string, or the integer 0 that the
      snooze code stores to force the next comparison to differ. */
  datatype LastMin = MinText(text: string) | IntZero

  /** `thisMin != lastMin`: in Python a string never equals an integer. */
  predicate MinuteChanged(thisMin: string, last: LastMin)
  {
    last.IntZero? || last.text != thisMin
  }

  /** `strftime("%-M")` never yields "00", so the first comparison against
      the "00" stored when an alarm starts always counts as a change. */
  lemma FirstPassCounts(m: nat)
    ensures MinuteChanged(NatToString(m), MinText("00"))
  {
  }

  /** The two e-ink refresh modes. */
  datatype Refresh = Full | Partial

  /** On a minute change: a full update iff the minute string contains "0". */
  function RefreshFor(thisMin: string): Refresh
  {
    if '0' in thisMin then Full else Partial
  }

  /** For a real minute this means a full update at minutes 0, 10, 20, 30,
      40 and 50 and a partial one otherwise. */
  lemma RefreshFullIff(m: nat)
    requires m < 60
    ensures RefreshFor(NatToString(m)) == Full <==> m % 10 == 0
  {
    var s := NatToString(m);
    if m >= 10 {
      assert s == [DigitChar(m / 10), DigitChar(m % 10)];
    } else {
      assert s == [DigitChar(m)];
    }
  }

  /** The configuration is re-read when the new minute string is "30". */
  predicate IsReloadMinute(thisMin: string) { thisMin == "30" }

  /** ... which is once an hour, at minute 30. */
  lemma ReloadMinuteIff(m: nat)
    ensures IsReloadMinute(NatToString(m)) <==> m == 30
  {
    assert NatToString(30) == "30";
    if NatToString(m) == "30" {
      NatToStringInjective(m, 30);
    }
  }

  /** The pin-9 timer's key: `(now + timedelta(hours=n)).strftime("%-H%-M")`;
      the minute is kept and the hour wraps past midnight. */
  function OffKey(h: nat, m: nat, hours: nat): string
    requires ValidTime(h, m)
  {
    CheckTime((h + hours) % 24, m)
  }

  /** A one-hour timer started at 23:30 matches at 0:30. */
  lemma OffKeyWraps()
    ensures OffKey(23, 30, 1) == "030"
    ensures CheckTime(0, 30) == OffKey(23, 30, 1)
  {
    assert NatToString(30) == "30";
  }
}
