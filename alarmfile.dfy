/** The alarm data file shared by the clock and the web server: one line
    `hour,minute,flag`, written whole by the clock's Toggle action and by the
    web form, and read back at start-up, on Reload, at minute 30 and by the
    web page. */
module AlarmFile {

  import opened Wrappers
  import opened Decimal

  /** The clock's `alarm_hour`, `alarm_min`, `alarm_set`. The numbers are
      whatever `int` read from the file; nothing checks their range. */
  datatype AlarmConfig = AlarmConfig(hour: int, minute: int, enabled: bool)

  /** The readers: `text.split(",")`, `int` of the first two words and
      `bool(int(...))` of the third. Fewer than three words, or a word `int`
      refuses, raises. Words after the third are ignored. */
  function Parse(text: string): (r: Result<AlarmConfig>)
    ensures r.Ok? ==> |Split(text, ',')| >= 3
    ensures r.Ok? ==> ParseInt(Split(text, ',')[0]) == Ok(r.value.hour)
    ensures r.Ok? ==> ParseInt(Split(text, ',')[1]) == Ok(r.value.minute)
    ensures r.Ok? ==> ParseInt(Split(text, ',')[2]).Ok?
                      && r.value.enabled == (ParseInt(Split(text, ',')[2]).value != 0)
    ensures (|Split(text, ',')| >= 3 && ParseInt(Split(text, ',')[0]).Ok?
             && ParseInt(Split(text, ',')[1]).Ok? && ParseInt(Split(text, ',')[2]).Ok?) ==> r.Ok?
  {
    var words := Split(text, ',');
    if |words| < 3 then Err
    else
      match (ParseInt(words[0]), ParseInt(words[1]), ParseInt(words[2]))
      case (Ok(h), Ok(m), Ok(b)) => Ok(AlarmConfig(h, m, b != 0))
      case _ => Err
  }

  /** The clock's writer: `str(alarm_hour) + "," + str(alarm_min) + ",0"` or `",1"`. */
  function Render(c: AlarmConfig): string
  {
    IntToString(c.hour) + "," + IntToString(c.minute) + "," + (if c.enabled then "1" else "0")
  }

  /** `str` of a number holds only digits and a leading minus, so no other
      character can occur in it. */
  lemma NoSeparatorInNumber(i: int, sep: char)
    requires !IsDigit(sep) && sep != '-'
    ensures sep !in IntToString(i)
  {
    var s := IntToString(i);
    if i < 0 {
      assert s == "-" + NatToString(-i);
      assert forall k :: 1 <= k < |s| ==> s[k] == NatToString(-i)[k - 1];
    }
  }

  /** Splitting `a,b,c` gives back the three pieces when none holds a comma. */
  lemma SplitThree(a: string, b: string, c: string)
    requires ',' !in a && ',' !in b && ',' !in c
    ensures Split(a + "," + b + "," + c, ',') == [a, b, c]
  {
    assert a + "," + b + "," + c == a + [','] + (b + [','] + c);
    SplitPrefix(a, b + [','] + c, ',');
    SplitPrefix(b, c, ',');
    SplitNoSep(c, ',');
  }

  /** What the clock writes, the clock reads back unchanged. */
  lemma {:induction false} ParseRender(c: AlarmConfig)
    ensures Parse(Render(c)) == Ok(c)
  {
    var a, b := IntToString(c.hour), IntToString(c.minute);
    var flag := if c.enabled then "1" else "0";
    NoSeparatorInNumber(c.hour, ',');
    NoSeparatorInNumber(c.minute, ',');
    SplitThree(a, b, flag);
    assert Split(Render(c), ',') == [a, b, flag];
    ParseIntOfIntToString(c.hour);
    ParseIntOfIntToString(c.minute);
    FlagValue(c.enabled);
  }

  /** The flag word reads back as 1 or 0. */
  lemma FlagValue(b: bool)
    ensures ParseInt(if b then "1" else "0") == Ok(if b then 1 else 0)
  {
    ParseIntDigits(if b then "1" else "0");
  }

  /** The fields of the web form that `alarm_control` reads; `None` is a
      field the request did not send. */
  datatype Form = Form(onOrOff: Option<string>, usrTime: Option<string>,
                       hour: Option<string>, minute: Option<string>)

  /** The hour and minute strings the POST handler takes: the two first
      pieces of `usr_time` split on ":", or, when that raises (no field, or
      no ":" in it), the `hour` and `minute` fields. */
  function PostTime(form: Form): (r: Result<(string, string)>)
    ensures form.usrTime.Some? && |Split(form.usrTime.value, ':')| >= 2 ==>
              r == Ok((Split(form.usrTime.value, ':')[0], Split(form.usrTime.value, ':')[1]))
    ensures (form.usrTime.None? || |Split(form.usrTime.value, ':')| < 2) ==>
              (r.Ok? <==> form.hour.Some? && form.minute.Some?)
    ensures (form.usrTime.None? || |Split(form.usrTime.value, ':')| < 2) && r.Ok? ==>
              r.value == (form.hour.value, form.minute.value)
  {
    if form.usrTime.Some? && |Split(form.usrTime.value, ':')| >= 2 then
      var parts := Split(form.usrTime.value, ':');
      Ok((parts[0], parts[1]))
    else if form.hour.Some? && form.minute.Some? then
      Ok((form.hour.value, form.minute.value))
    else
      Err
  }

  /** The text the POST handler writes: `hour + "," + minute + ","` then "1"
      when `int(on_or_off)` is non-zero and "0" otherwise. A missing or
      non-numeric `on_or_off` raises before anything is written. */
  function PostText(form: Form): (r: Result<string>)
    ensures r.Ok? <==> form.onOrOff.Some? && ParseInt(form.onOrOff.value).Ok? && PostTime(form).Ok?
  {
    if form.onOrOff.None? then Err
    else
      match ParseInt(form.onOrOff.value)
      case Err => Err
      case Ok(bit) =>
        match PostTime(form)
        case Err => Err
        case Ok((h, m)) => Ok(h + "," + m + "," + (if bit != 0 then "1" else "0"))
  }

  /** Whatever form is posted, when the hour and minute it supplies hold no
      comma and `int` accepts them, the readers get back `int` of each and
      the posted on/off bit. */
  lemma PostReadBack(form: Form)
    requires PostText(form).Ok?
    requires ',' !in PostTime(form).value.0 && ',' !in PostTime(form).value.1
    requires ParseInt(PostTime(form).value.0).Ok? && ParseInt(PostTime(form).value.1).Ok?
    ensures Parse(PostText(form).value)
              == Ok(AlarmConfig(ParseInt(PostTime(form).value.0).value,
                                ParseInt(PostTime(form).value.1).value,
                                ParseInt(form.onOrOff.value).value != 0))
  {
    var (h, m) := PostTime(form).value;
    var on := ParseInt(form.onOrOff.value).value != 0;
    var flag := if on then "1" else "0";
    assert PostText(form).value == h + "," + m + "," + flag;
    SplitThree(h, m, flag);
    var words := Split(h + "," + m + "," + flag, ',');
    assert words == [h, m, flag];
    FlagValue(on);
    assert ParseInt(words[2]) == Ok(if on then 1 else 0);
  }

  /** Nothing stops a comma inside a posted field: an hour of "1,2" with
      minute "3" and the alarm posted off is written as "1,2,3,0", which the
      readers take as 1:02 with the alarm on. */
  lemma PostCommaCorrupts()
    ensures PostText(Form(Some("0"), None, Some("1,2"), Some("3"))) == Ok("1,2,3,0")
    ensures Parse("1,2,3,0") == Ok(AlarmConfig(1, 2, true))
  {
    PostCommaWrites();
    CommaLineReads();
  }

  lemma PostCommaWrites()
    ensures PostText(Form(Some("0"), None, Some("1,2"), Some("3"))) == Ok("1,2,3,0")
  {
    ParseIntDigits("0");
    var form := Form(Some("0"), None, Some("1,2"), Some("3"));
    assert PostTime(form) == Ok(("1,2", "3"));
    assert "1,2" + "," + "3" + "," + "0" == "1,2,3,0";
  }

  lemma CommaLineReads()
    ensures Parse("1,2,3,0") == Ok(AlarmConfig(1, 2, true))
  {
    SmallDigits();
    FourWords();
    var words := Split("1,2,3,0", ',');
    assert ParseInt(words[0]) == Ok(1) && ParseInt(words[1]) == Ok(2) && ParseInt(words[2]) == Ok(3);
  }

  lemma SmallDigits()
    ensures ParseInt("1") == Ok(1) && ParseInt("2") == Ok(2) && ParseInt("3") == Ok(3)
  {
    ParseIntDigits("1");
    ParseIntDigits("2");
    ParseIntDigits("3");
  }

  lemma FourWords()
    ensures Split("1,2,3,0", ',') == ["1", "2", "3", "0"]
  {
    SplitFour("1", "2", "3", "0");
    assert "1" + "," + "2" + "," + "3" + "," + "0" == "1,2,3,0";
  }

  /** A line of four comma-free words splits into those four. */
  lemma SplitFour(a: string, b: string, c: string, d: string)
    requires ',' !in a && ',' !in b && ',' !in c && ',' !in d
    ensures Split(a + "," + b + "," + c + "," + d, ',') == [a, b, c, d]
  {
    assert a + "," + b + "," + c + "," + d == a + [','] + (b + "," + c + "," + d);
    SplitPrefix(a, b + "," + c + "," + d, ',');
    SplitThree(b, c, d);
  }

  /** A form time `H:M` of decimal digits is read back as `int(H)`, `int(M)`
      and the same on/off bit; leading zeros are lost ("07:05" reads as 7, 5). */
  lemma PostRoundTrip(h: string, m: string, onOrOff: string, bit: int)
    requires |h| >= 1 && AllDigits(h) && |m| >= 1 && AllDigits(m)
    requires ParseInt(onOrOff) == Ok(bit)
    ensures var form := Form(Some(onOrOff), Some(h + ":" + m), None, None);
            PostText(form).Ok? &&
            Parse(PostText(form).value) == Ok(AlarmConfig(DigitsValue(h), DigitsValue(m), bit != 0))
  {
    PostJoins(h, m, onOrOff, bit);
    ParseJoined(h, m, bit != 0);
  }

  /** The posted "H:M" is split at its colon into the file's first two
      fields. */
  lemma PostJoins(h: string, m: string, onOrOff: string, bit: int)
    requires |h| >= 1 && AllDigits(h) && |m| >= 1 && AllDigits(m)
    requires ParseInt(onOrOff) == Ok(bit)
    ensures PostText(Form(Some(onOrOff), Some(h + ":" + m), None, None))
              == Ok(h + "," + m + "," + (if bit != 0 then "1" else "0"))
  {
    assert ':' !in h && ':' !in m by {
      assert forall i :: 0 <= i < |h| ==> IsDigit(h[i]);
      assert forall i :: 0 <= i < |m| ==> IsDigit(m[i]);
    }
    assert h + ":" + m == h + [':'] + m;
    SplitPrefix(h, m, ':');
    SplitNoSep(m, ':');
  }

  /** A line of two digit strings and a flag reads back as those numbers. */
  lemma ParseJoined(h: string, m: string, on: bool)
    requires |h| >= 1 && AllDigits(h) && |m| >= 1 && AllDigits(m)
    ensures Parse(h + "," + m + "," + (if on then "1" else "0"))
              == Ok(AlarmConfig(DigitsValue(h), DigitsValue(m), on))
  {
    var flag := if on then "1" else "0";
    assert ',' !in h && ',' !in m by {
      assert forall i :: 0 <= i < |h| ==> IsDigit(h[i]);
      assert forall i :: 0 <= i < |m| ==> IsDigit(m[i]);
    }
    SplitThree(h, m, flag);
    var words := Split(h + "," + m + "," + flag, ',');
    assert words == [h, m, flag];
    ParseIntDigits(h);
    ParseIntDigits(m);
    FlagValue(on);
    assert ParseInt(words[0]) == Ok(DigitsValue(h)) && ParseInt(words[1]) == Ok(DigitsValue(m));
    assert ParseInt(words[2]) == Ok(if on then 1 else 0);
  }

  /** What the GET page shows: the wording and the time. */
  datatype Page = Page(status: string, time: string)

  /** The GET handler: "set for" exactly when the flag is on, otherwise
      "not set for", and the time as `str(hour) + ":" + str(minute)`,
      without padding. An unreadable file raises. */
  function GetPage(text: string): (r: Result<Page>)
    ensures r.Ok? <==> Parse(text).Ok?
    ensures r.Ok? ==> (r.value.status == "set for" <==> Parse(text).value.enabled)
    ensures r.Ok? ==> (r.value.status == "not set for" <==> !Parse(text).value.enabled)
    ensures r.Ok? ==> r.value.time == TimeText(Parse(text).value.hour, Parse(text).value.minute)
  {
    match Parse(text)
    case Err => Err
    case Ok(c) =>
      Ok(Page(if c.enabled then "set for" else "not set for", TimeText(c.hour, c.minute)))
  }

  /** A time as the page and the clock's messages show it: `str(hour) + ":"
      + str(minute)`, unpadded. */
  function TimeText(hour: int, minute: int): string
  {
    IntToString(hour) + ":" + IntToString(minute)
  }

  /** Different times never show the same text: the text before the colon
      reads back as the hour and the text after it as the minute. */
  lemma TimeTextInjective(h1: int, m1: int, h2: int, m2: int)
    requires TimeText(h1, m1) == TimeText(h2, m2)
    ensures h1 == h2 && m1 == m2
  {
    TimeTextSplit(h1, m1);
    TimeTextSplit(h2, m2);
    ParseIntOfIntToString(h1);
    ParseIntOfIntToString(h2);
    ParseIntOfIntToString(m1);
    ParseIntOfIntToString(m2);
  }

  lemma TimeTextSplit(h: int, m: int)
    ensures Split(TimeText(h, m), ':') == [IntToString(h), IntToString(m)]
  {
    NoSeparatorInNumber(h, ':');
    NoSeparatorInNumber(m, ':');
    assert TimeText(h, m) == IntToString(h) + [':'] + IntToString(m);
    SplitPrefix(IntToString(h), IntToString(m), ':');
    SplitNoSep(IntToString(m), ':');
  }

  /** Posting the digit time `H:M` makes the page show `int(H):int(M)`
      with the posted on/off wording. */
  lemma PostThenGet(h: string, m: string, onOrOff: string, bit: int)
    requires |h| >= 1 && AllDigits(h) && |m| >= 1 && AllDigits(m)
    requires ParseInt(onOrOff) == Ok(bit)
    ensures var form := Form(Some(onOrOff), Some(h + ":" + m), None, None);
            PostText(form).Ok? &&
            GetPage(PostText(form).value)
              == Ok(Page(if bit != 0 then "set for" else "not set for",
                         NatToString(DigitsValue(h)) + ":" + NatToString(DigitsValue(m))))
  {
    PostRoundTrip(h, m, onOrOff, bit);
  }

  /** The padding of a posted "07:05" does not come back: the page shows "7:5". */
  lemma PaddingDropped()
    ensures NatToString(DigitsValue("07")) + ":" + NatToString(DigitsValue("05")) == "7:5"
  {
    assert DigitsValue("07") == 7 && DigitsValue("05") == 5;
  }

  /** The clock's message after Toggle or Reload: "Alarm on at H:M" or
      "Alarm off at H:M", unpadded. */
  function StatusMessage(c: AlarmConfig): (s: string)
    ensures |s| > 13
    ensures c.enabled ==> s[..12] == "Alarm on at " && s[12..] == TimeText(c.hour, c.minute)
    ensures !c.enabled ==> s[..13] == "Alarm off at " && s[13..] == TimeText(c.hour, c.minute)
  {
    (if c.enabled then "Alarm on at " else "Alarm off at ") + TimeText(c.hour, c.minute)
  }

  /** The message tells the whole setting: two settings that differ in the
      flag, the hour or the minute never give the same message. */
  lemma StatusMessageInjective(c1: AlarmConfig, c2: AlarmConfig)
    requires StatusMessage(c1) == StatusMessage(c2)
    ensures c1 == c2
  {
    var s := StatusMessage(c1);
    assert s[7] == (if c1.enabled then 'n' else 'f');
    assert s[7] == (if c2.enabled then 'n' else 'f');
    var k := if c1.enabled then 12 else 13;
    assert s[k..] == TimeText(c1.hour, c1.minute) == TimeText(c2.hour, c2.minute);
    TimeTextInjective(c1.hour, c1.minute, c2.hour, c2.minute);
  }
}
