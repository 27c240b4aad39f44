/** The clock process's `main()`: the variables it keeps across passes of
    its `while True` loop, and what each part of a pass does to them: the
    alarm check and session, the pin-9 off timer, the display refresh with
    its hourly reload, and the actions the button menus start. Relays are
    switched through the web server's pin table (`pin_change` is a request
    `/api/<change>/<pin>/`), so the clock keeps that table's flags as its
    view of the relays. */
module AlarmClock {

  import opened Wrappers
  import opened Decimal
  import opened AlarmFile
  import opened Schedule
  import opened Relays
  import opened Buttons
  import Session
  import Navigation

  /** `alarm_volume_level`, the mixer level the alarm plays at. */
  const AlarmVolume := 80

  /** The mixer level and `volume_level` set at start-up. */
  const StartVolume := 80

  /** Volume Up: `volume_level + 2`, capped at 100. */
  function Louder(level: int): int
  {
    if level + 2 > 100 then 100 else level + 2
  }

  /** Volume Down: `volume_level - 2`, floored at 0. */
  function Softer(level: int): int
  {
    if level - 2 < 0 then 0 else level - 2
  }

  /** The levels the volume actions can produce: even, within 0..100. */
  predicate LevelOk(level: int) { 0 <= level <= 100 && level % 2 == 0 }

  /** A press moves an in-range level by two and never leaves the range;
      the two presses undo each other away from the ends. */
  lemma VolumeStep(level: int)
    requires 0 <= level <= 100
    ensures 0 <= Louder(level) <= 100 && 0 <= Softer(level) <= 100
    ensures Louder(level) == if level <= 98 then level + 2 else 100
    ensures Softer(level) == if level >= 2 then level - 2 else 0
    ensures LevelOk(level) ==> LevelOk(Louder(level)) && LevelOk(Softer(level))
    ensures level <= 98 ==> Softer(Louder(level)) == level
    ensures level >= 2 ==> Louder(Softer(level)) == level
  {
  }

  /** `n` presses of Volume Up (or Down) in a row. */
  function Presses(level: int, n: nat, up: bool): int
    decreases n
  {
    if n == 0 then level else Presses(if up then Louder(level) else Softer(level), n - 1, up)
  }

  function Min(a: int, b: int): int { if a <= b then a else b }
  function Max(a: int, b: int): int { if a >= b then a else b }

  /** From an even level, `n` presses of Up give `min(level + 2n, 100)` and
      `n` presses of Down give `max(level - 2n, 0)`. */
  lemma {:induction false} PressesClamp(level: int, n: nat)
    requires LevelOk(level)
    ensures Presses(level, n, true) == Min(level + 2 * n, 100)
    ensures Presses(level, n, false) == Max(level - 2 * n, 0)
    decreases n
  {
    if n > 0 {
      VolumeStep(level);
      PressesClamp(Louder(level), n - 1);
      PressesClamp(Softer(level), n - 1);
    }
  }

  /** The variables of `main()` that outlive a pass. `turnOffLed` is
      unassigned until the first timer is set; it is only read while
      `timer` is set. `mixer` is the level last given to `amixer`; `pins`
      the relay flags as the web server holds them. */
  datatype ClockState = ClockState(
    alarm: AlarmConfig, file: string, lastMin: LastMin,
    timer: bool, turnOffLed: string, speakersTimer: bool,
    volume: int, mixer: int, pins: Flags)

  /** What every reachable state satisfies: `speakers_timer` is only ever
      assigned `False`, and both levels stay even within 0..100. */
  predicate Valid(v: ClockState)
  {
    !v.speakersTimer && LevelOk(v.volume) && 0 <= v.mixer <= 100
  }

  /** Start-up: the alarm file is read (a malformed file raises and the
      program never starts), `lastMin = "00"`, no timers, and the volume
      and the mixer at 80. The relay flags are whatever the server holds. */
  function Boot(text: string, pins: Flags): (r: Result<ClockState>)
    ensures r.Ok? <==> Parse(text).Ok?
    ensures r.Ok? ==> Valid(r.value) && r.value.alarm == Parse(text).value && r.value.file == text
    ensures r.Ok? ==> r.value.volume == StartVolume && r.value.mixer == StartVolume
    ensures r.Ok? ==> !r.value.timer && r.value.pins == pins && r.value.lastMin == MinText("00")
  {
    match Parse(text)
    case Err => Err
    case Ok(c) => Ok(ClockState(c, text, MinText("00"), false, "", false, StartVolume, StartVolume, pins))
  }

  /** `pin_change(pin, change)`. */
  function PinChange(v: ClockState, pin: string, change: string): ClockState
  {
    v.(pins := Request(v.pins, change, pin))
  }

  // ----- The pin-9 off timer -----

  /** The timer part of a pass, with `check_time` as `key`: pin 9 goes off
      and the timer is cleared when the key matches. The speaker timer's
      branch would read `turn_off_speakers`, which nothing assigns, and so
      raise. */
  function TimerChecked(v: ClockState, key: string): (r: Result<ClockState>)
  {
    var v1 := if v.timer && key == v.turnOffLed then PinChange(v, "9", "off").(timer := false) else v;
    if v1.speakersTimer then Err else Ok(v1)
  }

  /** The timer fires exactly when it is set and the key matches: then pin 9
      is off and the timer clear, and nothing else changes; otherwise nothing
      changes at all. The speaker branch never runs in a valid state. */
  lemma TimerCheckSpec(v: ClockState, key: string)
    requires Valid(v)
    ensures TimerChecked(v, key).Ok? && Valid(TimerChecked(v, key).value)
    ensures v.timer && key == v.turnOffLed ==>
              TimerChecked(v, key).value == v.(pins := v.pins.(nine := false), timer := false)
    ensures !(v.timer && key == v.turnOffLed) ==> TimerChecked(v, key).value == v
  {
  }

  /** The 1-hour and 2-hour actions: arm the single timer slot with the key
      of now plus `hours` and switch pin 11 on. */
  function TimerSet(v: ClockState, h: nat, m: nat, hours: nat): ClockState
    requires ValidTime(h, m)
  {
    PinChange(v.(timer := true, turnOffLed := OffKey(h, m, hours)), "11", "on")
  }

  /** Once it has fired, the timer stays quiet: a second check with the same
      key changes nothing. */
  lemma TimerFiresOnce(v: ClockState, key: string)
    requires Valid(v)
    ensures TimerChecked(v, key).Ok?
    ensures TimerChecked(TimerChecked(v, key).value, key) == TimerChecked(v, key)
  {
  }

  /** Armed at `h:m` for `hours`, a check at the minute `hours` later (past
      midnight too) switches pin 9 off and clears the timer. */
  lemma TimerFiresAtDeadline(v: ClockState, h: nat, m: nat, hours: nat)
    requires Valid(v) && ValidTime(h, m)
    ensures var armed := TimerSet(v, h, m, hours);
            TimerChecked(armed, CheckTime((h + hours) % 24, m))
              == Ok(armed.(pins := armed.pins.(nine := false), timer := false))
  {
  }

  /** Re-arming overwrites the single slot: only the last deadline counts. */
  lemma RearmOverwrites(v: ClockState, h1: nat, m1: nat, n1: nat, h2: nat, m2: nat, n2: nat)
    requires ValidTime(h1, m1) && ValidTime(h2, m2)
    ensures TimerSet(TimerSet(v, h1, m1, n1), h2, m2, n2) == TimerSet(v, h2, m2, n2)
  {
  }

  // ----- Alarm toggle and reload -----

  /** Toggle: flip `alarm_set` and write the whole file anew. */
  function Toggled(v: ClockState): ClockState
  {
    var c := v.alarm.(enabled := !v.alarm.enabled);
    v.(alarm := c, file := Render(c))
  }

  /** Reload: read the file back; a malformed file raises. */
  function Reloaded(v: ClockState): (r: Result<ClockState>)
    ensures r.Ok? <==> Parse(v.file).Ok?
  {
    match Parse(v.file)
    case Err => Err
    case Ok(c) => Ok(v.(alarm := c))
  }

  /** What Toggle writes, Reload reads back unchanged (so the message is the
      same), and toggling twice restores the alarm settings. */
  lemma ToggleRoundTrip(v: ClockState)
    ensures Toggled(v).alarm.enabled == !v.alarm.enabled
    ensures Toggled(v).alarm.hour == v.alarm.hour && Toggled(v).alarm.minute == v.alarm.minute
    ensures Reloaded(Toggled(v)) == Ok(Toggled(v))
    ensures Toggled(Toggled(v)).alarm == v.alarm
  {
    ParseRender(Toggled(v).alarm);
  }

  // ----- The display refresh -----

  /** A state and the e-ink refresh, if any, a pass made. */
  datatype Redraw = Redraw(v: ClockState, refresh: Option<Refresh>)

  /** The refresh part of a pass: on a new minute, record it and refresh,
      fully when the minute string holds a "0"; at minute "30" also re-read
      the alarm file, which raises when the file is malformed. */
  function Refreshed(v: ClockState, thisMin: string): (r: Result<Redraw>)
  {
    if !MinuteChanged(thisMin, v.lastMin) then Ok(Redraw(v, None))
    else
      var v1 := v.(lastMin := MinText(thisMin));
      if IsReloadMinute(thisMin) then
        match Parse(v1.file)
        case Err => Err
        case Ok(c) => Ok(Redraw(v1.(alarm := c), Some(Full)))
      else Ok(Redraw(v1, Some(RefreshFor(thisMin))))
  }

  /** A refresh happens iff the minute changed, of the kind the minute
      string calls for; only minute "30" re-reads the file; a second
      refresh with the same minute does nothing. */
  lemma RefreshSpec(v: ClockState, thisMin: string)
    ensures !MinuteChanged(thisMin, v.lastMin) ==> Refreshed(v, thisMin) == Ok(Redraw(v, None))
    ensures MinuteChanged(thisMin, v.lastMin) && !IsReloadMinute(thisMin) ==>
              Refreshed(v, thisMin) == Ok(Redraw(v.(lastMin := MinText(thisMin)), Some(RefreshFor(thisMin))))
    ensures MinuteChanged(thisMin, v.lastMin) && IsReloadMinute(thisMin) ==>
              (Refreshed(v, thisMin).Ok? <==> Parse(v.file).Ok?)
    ensures MinuteChanged(thisMin, v.lastMin) && IsReloadMinute(thisMin) && Parse(v.file).Ok? ==>
              Refreshed(v, thisMin)
                == Ok(Redraw(v.(lastMin := MinText(thisMin), alarm := Parse(v.file).value), Some(Full)))
    ensures Refreshed(v, thisMin).Ok? ==>
              Refreshed(Refreshed(v, thisMin).value.v, thisMin) == Ok(Redraw(Refreshed(v, thisMin).value.v, None))
  {
    if IsReloadMinute(thisMin) {
      assert RefreshFor(thisMin) == Full by { assert thisMin[1] == '0'; }
    }
  }

  /** A refresh keeps the invariant. */
  lemma RefreshValid(v: ClockState, thisMin: string)
    requires Valid(v) && Refreshed(v, thisMin).Ok?
    ensures Valid(Refreshed(v, thisMin).value.v)
    ensures Refreshed(v, thisMin).value.v.pins == v.pins && Refreshed(v, thisMin).value.v.timer == v.timer
  {
  }

  // ----- The alarm itself -----

  /** The alarm start, in the scheduled and the test path alike:
      `speakers_timer = False`, `lastMin = "00"`, pins 12, 11 and 10 on and
      pin 9 off. */
  function Armed(v: ClockState): ClockState
  {
    var v1 := PinChange(PinChange(PinChange(PinChange(v, "12", "on"), "11", "on"), "10", "on"), "9", "off");
    v1.(speakersTimer := false, lastMin := MinText("00"))
  }

  lemma ArmedSpec(v: ClockState)
    requires Valid(v)
    ensures Armed(v).pins == Flags(true, true, true, false)
    ensures !Armed(v).speakersTimer && Armed(v).lastMin == MinText("00") && Valid(Armed(v))
    ensures Armed(v).(pins := v.pins, lastMin := v.lastMin) == v
  {
  }

  /** The sound failed to load: pin 11 goes off again. */
  function AudioFailed(v: ClockState): ClockState
  {
    PinChange(v, "11", "off")
  }

  /** The mixer level after a session's effects, starting from `level`. */
  function MixerAfter(level: int, effects: seq<Session.Effect>): int
    decreases |effects|
  {
    if effects == [] then level
    else MixerAfter(if effects[0].RestoreVolume? then effects[0].level else level, effects[1..])
  }

  /** When every restore in the effects is to `volume`, the mixer ends at
      `volume` iff there is one. */
  lemma {:induction false} MixerAfterRestores(level: int, effects: seq<Session.Effect>, volume: int)
    requires forall e :: e in effects && e.RestoreVolume? ==> e.level == volume
    ensures MixerAfter(level, effects) == if Session.RestoreVolume(volume) in effects then volume else level
    decreases |effects|
  {
    if effects != [] {
      assert forall e :: e in effects[1..] ==> e in effects;
      var next := if effects[0].RestoreVolume? then effects[0].level else level;
      MixerAfterRestores(next, effects[1..], volume);
      assert Session.RestoreVolume(volume) in effects <==>
               effects[0] == Session.RestoreVolume(volume) || Session.RestoreVolume(volume) in effects[1..];
    }
  }

  /** A finished session as the clock sees it afterwards: `lastMin` as the
      loops left it and the mixer as their `amixer` calls left it, starting
      from the alarm level. */
  function AfterSession(v: ClockState, r: Session.Ran): ClockState
  {
    v.(lastMin := r.state.last, mixer := MixerAfter(AlarmVolume, r.effects))
  }

  /** A session from its start switches no relay and touches no timer or
      alarm setting; the mixer is back at the user's level iff the alarm was
      turned off with SW4, and stays at the alarm level after a time-out. */
  lemma SessionAftermath(v: ClockState, samples: seq<Session.Sample>)
    requires Valid(v)
    ensures var r := Session.Run(Session.Start, samples, v.volume);
            var after := AfterSession(v, r);
            Valid(after) && after.(lastMin := v.lastMin, mixer := v.mixer) == v
            && after.mixer == if r.state.mode == Session.TurnedOff then v.volume else AlarmVolume
  {
    var r := Session.Run(Session.Start, samples, v.volume);
    Session.RestoreOnlyOnOff(Session.Start, samples, v.volume);
    MixerAfterRestores(AlarmVolume, r.effects, v.volume);
  }

  // ----- The Music action -----

  /** What one pass of the Music loop observes: the minute, the buttons held
      low, whether a song is playing, whether `listdir` of the Music
      directory gives a non-empty list for `choice` to pick from (`listed`),
      and whether the file picked at random loads when the song is replaced
      (`loads`) or skipped (`skipLoads`). */
  datatype MusicSample = MusicSample(minute: nat, pressed: set<Button>, busy: bool,
                                     listed: bool, loads: bool, skipLoads: bool)

  /** How a Music pass ends: the loop goes on; SW4 ("Off") or a file that
      fails to load breaks out of it; a missing or empty Music directory
      when a song is replaced, or any failure on a skip, is not caught and
      ends the program. */
  datatype MusicEnd = Playing | Stopped | LoadFailed | ListRaised | SkipRaised

  datatype MusicPass = MusicPass(v: ClockState, end: MusicEnd)

  /** The Music action before its loop: the speaker timer cleared, pin 11
      on, `lastMin = "00"`. */
  function MusicEntered(v: ClockState): ClockState
  {
    PinChange(v, "11", "on").(speakersTimer := false, lastMin := MinText("00"))
  }

  /** The volume buttons of a Music pass: SW2 and SW1 move the volume (and
      the mixer with it) as in the Volume menu, without any `count`. */
  function MusicVolume(v: ClockState, pressed: set<Button>): (w: ClockState)
    ensures Valid(v) ==> Valid(w)
    ensures MusicKeeps(v, w) && w.pins == v.pins && w.lastMin == v.lastMin
    ensures SW2 !in pressed && SW1 !in pressed ==> w == v
  {
    var up := if SW2 in pressed then v.(volume := Louder(v.volume), mixer := Louder(v.volume)) else v;
    if SW1 in pressed then up.(volume := Softer(up.volume), mixer := Softer(up.volume)) else up
  }

  /** One pass of the Music loop. A new minute is recorded; a stopped song is
      replaced (a file that fails to load switches pin 11 off and ends the
      loop; no file to pick from raises); SW4 switches pin 11 off and ends
      it; SW3 skips to another song; then the volume buttons. A replaced or
      skipped song sets `lastMin = "00"`. */
  function MusicStep(v: ClockState, s: MusicSample): (r: MusicPass)
  {
    var thisMin := NatToString(s.minute);
    var v1 := if MinuteChanged(thisMin, v.lastMin) then v.(lastMin := MinText(thisMin)) else v;
    if !s.busy && !s.listed then MusicPass(v1, ListRaised)
    else if !s.busy && !s.loads then MusicPass(PinChange(v1, "11", "off"), LoadFailed)
    else
      var v2 := if !s.busy then v1.(lastMin := MinText("00")) else v1;
      if SW4 in s.pressed then MusicPass(PinChange(v2, "11", "off"), Stopped)
      else if SW3 in s.pressed && !(s.listed && s.skipLoads) then MusicPass(v2, SkipRaised)
      else
        var v3 := if SW3 in s.pressed then v2.(lastMin := MinText("00")) else v2;
        MusicPass(MusicVolume(v3, s.pressed), Playing)
  }

  /** Everything the Music loop leaves alone: the alarm and its file, both
      timers, and the relays other than pin 11. */
  predicate MusicKeeps(v: ClockState, w: ClockState)
  {
    w.alarm == v.alarm && w.file == v.file && w.timer == v.timer && w.turnOffLed == v.turnOffLed
    && w.speakersTimer == v.speakersTimer
    && w.pins.twelve == v.pins.twelve && w.pins.ten == v.pins.ten && w.pins.nine == v.pins.nine
  }

  /** A Music pass ends the loop exactly on SW4 or a failed load, leaving
      pin 11 off, and raises exactly when a stopped song finds no file to
      pick or a skip fails. */
  lemma MusicStepEnds(v: ClockState, s: MusicSample)
    ensures MusicStep(v, s).end == Stopped <==> (s.busy || (s.listed && s.loads)) && SW4 in s.pressed
    ensures MusicStep(v, s).end == LoadFailed <==> !s.busy && s.listed && !s.loads
    ensures MusicStep(v, s).end in {Stopped, LoadFailed} ==> !MusicStep(v, s).v.pins.eleven
    ensures MusicStep(v, s).end == ListRaised <==> !s.busy && !s.listed
    ensures MusicStep(v, s).end == SkipRaised <==>
              (s.busy || (s.listed && s.loads)) && SW4 !in s.pressed && SW3 in s.pressed
              && !(s.listed && s.skipLoads)
  {
  }

  /** A Music pass keeps the invariant; a pass without SW2 or SW1 keeps
      the volume. */
  lemma MusicStepSpec(v: ClockState, s: MusicSample)
    requires Valid(v)
    ensures Valid(MusicStep(v, s).v)
    ensures MusicStep(v, s).end == Playing && SW2 !in s.pressed && SW1 !in s.pressed ==>
              MusicStep(v, s).v.volume == v.volume
  {
  }

  /** A Music pass only ever touches pin 11, the volume and `lastMin`. */
  lemma MusicStepKeeps(v: ClockState, s: MusicSample)
    ensures MusicKeeps(v, MusicStep(v, s).v)
  {
    var thisMin := NatToString(s.minute);
    var v1 := if MinuteChanged(thisMin, v.lastMin) then v.(lastMin := MinText(thisMin)) else v;
    assert MusicKeeps(v, v1) && v1.pins == v.pins;
    RequestEffect(v.pins, "off", "11");
    if s.busy || (s.listed && s.loads) {
      var v2 := if !s.busy then v1.(lastMin := MinText("00")) else v1;
      assert MusicKeeps(v, v2) && v2.pins == v.pins;
      if SW4 !in s.pressed && (SW3 !in s.pressed || (s.listed && s.skipLoads)) {
        var v3 := if SW3 in s.pressed then v2.(lastMin := MinText("00")) else v2;
        assert MusicKeeps(v, v3);
      }
    }
  }

  /** The Music loop run on a sequence of passes, until it ends or the
      passes run out. */
  function MusicRun(v: ClockState, samples: seq<MusicSample>): (r: MusicPass)
    decreases |samples|
  {
    if samples == [] then MusicPass(v, Playing)
    else
      var first := MusicStep(v, samples[0]);
      if first.end != Playing then first else MusicRun(first.v, samples[1..])
  }

  /** However long the music plays, the volume stays even within 0..100,
      the speaker timer stays clear, and a loop that ends by SW4 or a failed
      load leaves pin 11 off. */
  lemma {:induction false} MusicRunValid(v: ClockState, samples: seq<MusicSample>)
    requires Valid(v)
    ensures Valid(MusicRun(v, samples).v) && MusicKeeps(v, MusicRun(v, samples).v)
    ensures MusicRun(v, samples).end in {Stopped, LoadFailed} ==> !MusicRun(v, samples).v.pins.eleven
    decreases |samples|
  {
    if samples != [] {
      MusicStepSpec(v, samples[0]);
      MusicStepKeeps(v, samples[0]);
      MusicStepEnds(v, samples[0]);
      var first := MusicStep(v, samples[0]);
      if first.end == Playing {
        MusicRunValid(first.v, samples[1..]);
      }
    }
  }

  /** The Music loop as the action runs it. */
  method Music(v0: ClockState, samples: seq<MusicSample>) returns (v: ClockState, end: MusicEnd)
    ensures MusicPass(v, end) == MusicRun(v0, samples)
  {
    v, end := v0, Playing;
    var i := 0;
    while i < |samples| && end == Playing
      invariant i <= |samples|
      invariant MusicRun(v0, samples) == if end == Playing then MusicRun(v, samples[i..]) else MusicPass(v, end)
      decreases |samples| - i
    {
      assert samples[i..][1..] == samples[i + 1..];
      var pass := MusicStep(v, samples[i]);
      v, end := pass.v, pass.end;
      i := i + 1;
    }
  }

  // ----- The actions the menus start -----

  /** How an action left the program: it goes on with a new state; it
      raised; or its loop was still running when the passes ran out. */
  datatype Done = Goes(v: ClockState) | Raised | Unfinished(v: ClockState)

  /** What the action a menu command names does to the clock's variables.
      `h:m` is the time the action reads; `test` and `music` are the
      passes of the test alarm and of the Music loop. Shutdown and Reboot
      end the program inside the menu; the readouts and the Game of Life
      only draw. */
  function Execute(v: ClockState, cmd: Navigation.Command, h: nat, m: nat,
                   test: seq<Session.Sample>, music: seq<MusicSample>): (r: Done)
    requires ValidTime(h, m)
  {
    match cmd
    case ToggleAlarm => Goes(Toggled(v))
    case ReloadAlarm => (match Reloaded(v) case Err => Raised case Ok(w) => Goes(w))
    case TestAlarm(loaded) =>
      var a := Armed(v);
      if !loaded then Goes(AudioFailed(a))
      else
        var run := Session.Run(Session.Start, test, v.volume);
        if Session.Active(run.state) then Unfinished(AfterSession(a, run)) else Goes(AfterSession(a, run))
    case VolumeUp => Goes(v.(volume := Louder(v.volume), mixer := Louder(v.volume)))
    case VolumeDown => Goes(v.(volume := Softer(v.volume), mixer := Softer(v.volume)))
    case PlayMusic =>
      var played := MusicRun(MusicEntered(v), music);
      (match played.end
       case Playing => Unfinished(played.v)
       case ListRaised => Raised
       case SkipRaised => Raised
       case _ => Goes(played.v))
    case TogglePin11 => Goes(PinChange(v.(timer := false), "11", "toggle"))
    case PinTimer(hours) => Goes(TimerSet(v, h, m, hours))
    case TogglePin12 => Goes(PinChange(v.(speakersTimer := false), "12", "toggle"))
    case AllOff =>
      var w := PinChange(PinChange(PinChange(PinChange(v, "12", "off"), "11", "off"), "10", "off"), "9", "off");
      Goes(w.(speakersTimer := false, timer := false))
    case TogglePin10 => Goes(PinChange(v, "10", "toggle"))
    case TogglePin9 => Goes(PinChange(v, "9", "toggle"))
    case _ => Goes(v)
  }

  /** Every action keeps the invariant; only Reload (on a malformed file) and
      Music (no file to pick, or a skip that fails) raise. */
  lemma ExecuteValid(v: ClockState, cmd: Navigation.Command, h: nat, m: nat,
                     test: seq<Session.Sample>, music: seq<MusicSample>)
    requires Valid(v) && ValidTime(h, m)
    ensures Execute(v, cmd, h, m, test, music).Raised? ==>
              (cmd == Navigation.ReloadAlarm && Parse(v.file).Err?) || cmd == Navigation.PlayMusic
    ensures !Execute(v, cmd, h, m, test, music).Raised? ==> Valid(Execute(v, cmd, h, m, test, music).v)
  {
    VolumeStep(v.volume);
    match cmd
    case TestAlarm(true) =>
      ArmedSpec(v);
      SessionAftermath(Armed(v), test);
    case PlayMusic => MusicRunValid(MusicEntered(v), music);
    case _ =>
  }

  /** Music raises on its first pass when no song is playing and the Music
      directory is missing or empty, and a music loop that raises ends the
      action as raised. */
  lemma MusicWithoutSongsRaises(v: ClockState, h: nat, m: nat, test: seq<Session.Sample>, music: seq<MusicSample>)
    requires ValidTime(h, m) && |music| >= 1 && !music[0].busy && !music[0].listed
    ensures Execute(v, Navigation.PlayMusic, h, m, test, music) == Raised
  {
    assert MusicStep(MusicEntered(v), music[0]).end == ListRaised;
  }

  /** The pin-11 toggle and All off disarm the timer; All off also switches
      every relay off. Neither the volume actions nor the alarm actions
      touch the timer or the relays. */
  lemma ExecuteTimerAndPins(v: ClockState, h: nat, m: nat, test: seq<Session.Sample>, music: seq<MusicSample>)
    requires ValidTime(h, m)
    ensures !Execute(v, Navigation.TogglePin11, h, m, test, music).v.timer
    ensures Execute(v, Navigation.TogglePin11, h, m, test, music).v.pins == v.pins.(eleven := !v.pins.eleven)
    ensures !Execute(v, Navigation.AllOff, h, m, test, music).v.timer
    ensures Execute(v, Navigation.AllOff, h, m, test, music).v.pins == Initial
    ensures forall cmd :: cmd in {Navigation.VolumeUp, Navigation.VolumeDown, Navigation.ToggleAlarm} ==>
              Execute(v, cmd, h, m, test, music).v.timer == v.timer
              && Execute(v, cmd, h, m, test, music).v.pins == v.pins
  {
  }

  /** The actions of a stretch of menu code, one after the other. */
  function ExecuteAll(v: ClockState, cmds: seq<Navigation.Command>, h: nat, m: nat,
                      test: seq<Session.Sample>, music: seq<MusicSample>): (r: Done)
    requires ValidTime(h, m)
    decreases |cmds|
  {
    if cmds == [] then Goes(v)
    else
      match Execute(v, cmds[0], h, m, test, music)
      case Goes(w) => ExecuteAll(w, cmds[1..], h, m, test, music)
      case other => other
  }

  // ----- One pass of the main loop, up to the menus -----

  /** How the time-driven part of a pass ends: the pass goes on to the
      menus; `main()` returns; an exception ends the program; or the alarm
      was still ringing when its passes ran out. */
  datatype PassEnd = Carry(v: ClockState, refresh: Option<Refresh>) | Returned(v: ClockState)
                   | Crashed | Ringing(v: ClockState)

  /** The timer check and the refresh, with `check_time` as `key` and the
      current minute string `thisMin`. */
  function TimerAndRefresh(v: ClockState, key: string, thisMin: string): PassEnd
  {
    match TimerChecked(v, key)
    case Err => Crashed
    case Ok(v1) =>
      match Refreshed(v1, thisMin)
      case Err => Crashed
      case Ok(d) => Carry(d.v, d.refresh)
  }

  /** The scheduled alarm followed by the rest of the pass, when the sound
      loaded: the session runs on `ring`; the timer check keeps the
      `check_time` read before it, while the refresh sees the minute of the
      session's last pass. */
  function RingThenCarry(v: ClockState, key: string, ring: seq<Session.Sample>): PassEnd
  {
    var a := Armed(v).(mixer := AlarmVolume);
    var run := Session.Run(Session.Start, ring, v.volume);
    if Session.Active(run.state) then Ringing(AfterSession(a, run))
    else
      Session.PassesBound(Session.Start, ring, v.volume);
      TimerAndRefresh(AfterSession(a, run), key, NatToString(ring[run.passes - 1].minute))
  }

  /** The pass as written: when the alarm's sound fails to load, pin 11 goes
      off and `break` leaves `main()`'s own `while True`, so `main()`
      returns and the clock stops. */
  function MainPassAsWritten(v: ClockState, h: nat, m: nat, loads: bool, ring: seq<Session.Sample>): PassEnd
    requires ValidTime(h, m)
  {
    var key := CheckTime(h, m);
    if !IsDue(v.alarm, h, m) then TimerAndRefresh(v, key, NatToString(m))
    else if !loads then Returned(AudioFailed(Armed(v)))
    else RingThenCarry(v, key, ring)
  }

  /** The pass as evidently intended: a sound that fails to load abandons
      only the alarm, as the same `break` does in the test path, and the
      pass goes on to the timer and the refresh. */
  function MainPass(v: ClockState, h: nat, m: nat, loads: bool, ring: seq<Session.Sample>): PassEnd
    requires ValidTime(h, m)
  {
    var key := CheckTime(h, m);
    if !IsDue(v.alarm, h, m) then TimerAndRefresh(v, key, NatToString(m))
    else if !loads then TimerAndRefresh(AudioFailed(Armed(v)), key, NatToString(m))
    else RingThenCarry(v, key, ring)
  }

  /** As written, a missing alarm sound stops the clock for good: `main()`
      returns on the pass the alarm falls due. */
  lemma AudioFailureEndsMain(v: ClockState, h: nat, m: nat, ring: seq<Session.Sample>)
    requires ValidTime(h, m) && IsDue(v.alarm, h, m)
    ensures MainPassAsWritten(v, h, m, false, ring).Returned?
  {
  }

  /** Corrected, the pass goes on with pin 11 off again, pins 12 and 10 on
      and pin 9 off, and the display refreshed for the alarm's minute. */
  lemma AudioFailureCarriesOn(v: ClockState, h: nat, m: nat, ring: seq<Session.Sample>)
    requires Valid(v) && ValidTime(h, m) && IsDue(v.alarm, h, m) && !IsReloadMinute(NatToString(m))
    ensures MainPass(v, h, m, false, ring).Carry?
    ensures MainPass(v, h, m, false, ring).v.pins == Flags(true, false, true, false)
    ensures MainPass(v, h, m, false, ring).refresh == Some(RefreshFor(NatToString(m)))
  {
    var a := AudioFailed(Armed(v));
    ArmedSpec(v);
    FirstPassCounts(m);
    TimerCheckSpec(a, CheckTime(h, m));
    RefreshSpec(TimerChecked(a, CheckTime(h, m)).value, NatToString(m));
  }

  /** A session that ends on the alarm's own minute leaves the alarm set:
      turning it off does not keep it from starting again on the next pass
      within that minute. */
  lemma SessionKeepsAlarm(v: ClockState, h: nat, m: nat, ring: seq<Session.Sample>)
    requires Valid(v) && ValidTime(h, m)
    ensures MainPassAsWritten(v, h, m, true, ring).Carry? ==>
              MainPassAsWritten(v, h, m, true, ring).v.alarm == v.alarm || IsReloadMinute(NatToString(m))
              || exists k :: 0 <= k < |ring| && IsReloadMinute(NatToString(ring[k].minute))
  {
    var key := CheckTime(h, m);
    if IsDue(v.alarm, h, m) {
      var a := Armed(v).(mixer := AlarmVolume);
      var run := Session.Run(Session.Start, ring, v.volume);
      if !Session.Active(run.state) {
        Session.PassesBound(Session.Start, ring, v.volume);
        var k := run.passes - 1;
        var w := AfterSession(a, run);
        ArmedSpec(v);
        SessionAftermath(a, ring);
        TimerCheckSpec(w, key);
        if !IsReloadMinute(NatToString(ring[k].minute)) {
          RefreshSpec(TimerChecked(w, key).value, NatToString(ring[k].minute));
        }
      }
    } else {
      TimerCheckSpec(v, key);
      RefreshSpec(TimerChecked(v, key).value, NatToString(m));
    }
  }

  /** The timer check and the refresh raise only on a malformed file read at
      minute 30, and keep the invariant. */
  lemma TimerAndRefreshValid(v: ClockState, key: string, thisMin: string)
    requires Valid(v)
    ensures TimerAndRefresh(v, key, thisMin).Crashed? ==> Parse(v.file).Err? && IsReloadMinute(thisMin)
    ensures !TimerAndRefresh(v, key, thisMin).Crashed? ==> Valid(TimerAndRefresh(v, key, thisMin).v)
  {
    TimerCheckSpec(v, key);
    var w := TimerChecked(v, key).value;
    RefreshSpec(w, thisMin);
    if Refreshed(w, thisMin).Ok? {
      RefreshValid(w, thisMin);
    }
  }

  /** Apart from the file read at minute 30, nothing in the time-driven part
      of a pass raises, and it keeps the invariant; `main()` returns only on
      an alarm whose sound failed to load. The corrected pass never returns
      and keeps the invariant too. */
  lemma MainPassValid(v: ClockState, h: nat, m: nat, loads: bool, ring: seq<Session.Sample>)
    requires Valid(v) && ValidTime(h, m)
    ensures MainPassAsWritten(v, h, m, loads, ring).Crashed? ==>
              Parse(v.file).Err? && (IsReloadMinute(NatToString(m))
                                     || exists k :: 0 <= k < |ring| && IsReloadMinute(NatToString(ring[k].minute)))
    ensures !MainPassAsWritten(v, h, m, loads, ring).Crashed? ==> Valid(MainPassAsWritten(v, h, m, loads, ring).v)
    ensures MainPassAsWritten(v, h, m, loads, ring).Returned? <==> IsDue(v.alarm, h, m) && !loads
    ensures !MainPass(v, h, m, loads, ring).Returned?
    ensures MainPass(v, h, m, loads, ring).Crashed? ==>
              Parse(v.file).Err? && (IsReloadMinute(NatToString(m))
                                     || exists k :: 0 <= k < |ring| && IsReloadMinute(NatToString(ring[k].minute)))
    ensures !MainPass(v, h, m, loads, ring).Crashed? ==> Valid(MainPass(v, h, m, loads, ring).v)
  {
    var key := CheckTime(h, m);
    if !IsDue(v.alarm, h, m) {
      TimerAndRefreshValid(v, key, NatToString(m));
    } else if !loads {
      ArmedSpec(v);
      TimerAndRefreshValid(AudioFailed(Armed(v)), key, NatToString(m));
    } else {
      RingThenCarryValid(v, key, ring);
    }
  }

  /** A scheduled session and the rest of its pass: only the reload at a
      session minute 30 can raise, and the invariant is kept. */
  lemma RingThenCarryValid(v: ClockState, key: string, ring: seq<Session.Sample>)
    requires Valid(v)
    ensures RingThenCarry(v, key, ring).Crashed? ==>
              Parse(v.file).Err? && exists k :: 0 <= k < |ring| && IsReloadMinute(NatToString(ring[k].minute))
    ensures !RingThenCarry(v, key, ring).Crashed? ==> Valid(RingThenCarry(v, key, ring).v)
  {
    ArmedSpec(v);
    var a := Armed(v).(mixer := AlarmVolume);
    SessionAftermath(a, ring);
    var run := Session.Run(Session.Start, ring, v.volume);
    if !Session.Active(run.state) {
      Session.PassesBound(Session.Start, ring, v.volume);
      var k := run.passes - 1;
      TimerAndRefreshValid(AfterSession(a, run), key, NatToString(ring[k].minute));
    }
  }

  /** A form the web server wrote reaches the clock at the next minute 30:
      the pass that re-reads the file takes the posted hour, minute and
      on/off bit as its alarm, and redraws the whole screen. */
  lemma PostReadAtReload(v: ClockState, form: Form, h: nat, loads: bool, ring: seq<Session.Sample>)
    requires Valid(v) && ValidTime(h, 30) && !IsDue(v.alarm, h, 30) && MinuteChanged("30", v.lastMin)
    requires PostText(form).Ok?
    requires ',' !in PostTime(form).value.0 && ',' !in PostTime(form).value.1
    requires ParseInt(PostTime(form).value.0).Ok? && ParseInt(PostTime(form).value.1).Ok?
    ensures var p := MainPassAsWritten(v.(file := PostText(form).value), h, 30, loads, ring);
            p.Carry? && p.refresh == Some(Full)
            && p.v.alarm == AlarmConfig(ParseInt(PostTime(form).value.0).value,
                                        ParseInt(PostTime(form).value.1).value,
                                        ParseInt(form.onOrOff.value).value != 0)
  {
    var w := v.(file := PostText(form).value);
    PostReadBack(form);
    ReloadMinuteIff(30);
    TimerCheckSpec(w, CheckTime(h, 30));
    RefreshSpec(TimerChecked(w, CheckTime(h, 30)).value, "30");
  }

  // ----- The main loop -----

  /** How far the program has got: still in its loops; `main()` returned;
      an exception ended it; a Shutdown or Reboot ended it; or a loop was
      still running when the passes given to the model ran out. */
  datatype Status = Running | MainReturned | Raising | PoweredOff | OutOfPasses

  /** The clock's variables, the menu loops running and the status. */
  datatype Machine = Machine(clock: ClockState, menu: Navigation.MenuState, status: Status)

  /** What one tick observes: the alarm file's text if the web server has
      written it since the last tick, the time, whether the alarm sound
      loads, the passes of an alarm session, the buttons for the menu code,
      and the passes of a test alarm and of the Music loop, should one
      start. */
  datatype Tick = Tick(written: Option<string>, hour: nat, minute: nat, loads: bool, ring: seq<Session.Sample>,
                       buttons: Navigation.Sample, test: seq<Session.Sample>, music: seq<MusicSample>)

  /** The clock's view of the file after the web server's write, if any. */
  function Written(v: ClockState, t: Tick): ClockState
  {
    if t.written.Some? then v.(file := t.written.value) else v
  }

  predicate ValidTick(t: Tick) { ValidTime(t.hour, t.minute) }

  predicate Wellformed(m: Machine)
  {
    Valid(m.clock) && Navigation.Valid(m.menu) && (m.menu.Halted? ==> m.status != Running)
  }

  /** The program as it enters `while True`. */
  function Booted(text: string, pins: Flags): (r: Result<Machine>)
    ensures r.Ok? ==> Wellformed(r.value) && r.value.status == Running
  {
    match Boot(text, pins)
    case Err => Err
    case Ok(v) => Ok(Machine(v, Navigation.Start, Running))
  }

  /** One tick: the web server's write, if any; when the main loop is at the
      top of its pass, the alarm, the timer and the refresh as written; then
      a stretch of the innermost menu loop (`Navigation.Step`) and the
      actions it starts, in order. */
  function Step(m: Machine, t: Tick): (r: Machine)
    requires Wellformed(m) && ValidTick(t)
  {
    if m.status != Running then m
    else
      var c := Written(m.clock, t);
      var first := if m.menu.stack == Navigation.AtHome then MainPassAsWritten(c, t.hour, t.minute, t.loads, t.ring)
                   else Carry(c, None);
      match first
      case Returned(v) => Machine(v, m.menu, MainReturned)
      case Crashed => m.(status := Raising)
      case Ringing(v) => Machine(v, m.menu, OutOfPasses)
      case Carry(v, _) =>
        var o := Navigation.Step(m.menu, t.buttons);
        match ExecuteAll(v, o.cmds, t.hour, t.minute, t.test, t.music)
        case Raised => Machine(v, o.state, Raising)
        case Unfinished(w) => Machine(w, o.state, OutOfPasses)
        case Goes(w) => Machine(w, o.state, if o.state.Halted? then PoweredOff else Running)
  }

  lemma {:induction false} ExecuteAllValid(v: ClockState, cmds: seq<Navigation.Command>, h: nat, m: nat,
                                           test: seq<Session.Sample>, music: seq<MusicSample>)
    requires Valid(v) && ValidTime(h, m)
    ensures !ExecuteAll(v, cmds, h, m, test, music).Raised? ==> Valid(ExecuteAll(v, cmds, h, m, test, music).v)
    decreases |cmds|
  {
    if cmds != [] {
      ExecuteValid(v, cmds[0], h, m, test, music);
      if Execute(v, cmds[0], h, m, test, music).Goes? {
        ExecuteAllValid(Execute(v, cmds[0], h, m, test, music).v, cmds[1..], h, m, test, music);
      }
    }
  }

  /** A tick keeps the machine well formed, and a stopped program stays as
      it stopped. */
  lemma StepValid(m: Machine, t: Tick)
    requires Wellformed(m) && ValidTick(t)
    ensures Wellformed(Step(m, t))
    ensures m.status != Running ==> Step(m, t) == m
  {
    if m.status == Running {
      var c := Written(m.clock, t);
      if m.menu.stack == Navigation.AtHome {
        MainPassValid(c, t.hour, t.minute, t.loads, t.ring);
      }
      var first := if m.menu.stack == Navigation.AtHome then MainPassAsWritten(c, t.hour, t.minute, t.loads, t.ring)
                   else Carry(c, None);
      if first.Carry? {
        var o := Navigation.Step(m.menu, t.buttons);
        ExecuteAllValid(first.v, o.cmds, t.hour, t.minute, t.test, t.music);
      }
    }
  }

  /** A tick at minute 30 that carries the web server's write of a form,
      with the main loop at rest and no action started from the menus,
      leaves the clock holding the posted alarm. */
  lemma PostReachesClock(m: Machine, t: Tick, form: Form)
    requires Wellformed(m) && ValidTick(t) && m.status == Running && m.menu.stack == Navigation.AtHome
    requires PostText(form).Ok? && t.written == Some(PostText(form).value) && t.minute == 30
    requires !IsDue(m.clock.alarm, t.hour, 30) && MinuteChanged("30", m.clock.lastMin)
    requires ',' !in PostTime(form).value.0 && ',' !in PostTime(form).value.1
    requires ParseInt(PostTime(form).value.0).Ok? && ParseInt(PostTime(form).value.1).Ok?
    requires Navigation.Step(m.menu, t.buttons).cmds == []
    ensures Step(m, t).clock.alarm == AlarmConfig(ParseInt(PostTime(form).value.0).value,
                                                  ParseInt(PostTime(form).value.1).value,
                                                  ParseInt(form.onOrOff.value).value != 0)
  {
    PostReadAtReload(m.clock, form, t.hour, t.loads, t.ring);
  }

  predicate ValidTicks(ticks: seq<Tick>) { forall k :: 0 <= k < |ticks| ==> ValidTick(ticks[k]) }

  /** The program driven by a sequence of ticks. */
  function Trace(m: Machine, ticks: seq<Tick>): (r: Machine)
    requires Wellformed(m) && ValidTicks(ticks)
    decreases |ticks|
  {
    if ticks == [] then m
    else
      StepValid(m, ticks[0]);
      Trace(Step(m, ticks[0]), ticks[1..])
  }

  /** Along any run the invariant holds: `speakers_timer` is never set, so
      its branch never runs, and the volume stays even within 0..100. */
  lemma {:induction false} TraceValid(m: Machine, ticks: seq<Tick>)
    requires Wellformed(m) && ValidTicks(ticks)
    ensures Wellformed(Trace(m, ticks))
    ensures m.status != Running ==> Trace(m, ticks) == m
    decreases |ticks|
  {
    if ticks != [] {
      StepValid(m, ticks[0]);
      TraceValid(Step(m, ticks[0]), ticks[1..]);
    }
  }

  // ----- The loops as the program runs them -----

  /** The time-driven part of a pass of `main()`'s loop, step by step: the
      due check and the alarm (its loops run by `Session.Ring`), then the
      timer check and the refresh; an alarm sound that fails to load leaves
      `main()`. */
  method TimePart(v: ClockState, h: nat, m: nat, loads: bool, ring: seq<Session.Sample>) returns (r: PassEnd)
    requires ValidTime(h, m)
    ensures r == MainPassAsWritten(v, h, m, loads, ring)
  {
    var key := CheckTime(h, m);
    if !IsDue(v.alarm, h, m) {
      r := CheckAndRefresh(v, key, NatToString(m));
    } else if !loads {
      r := Returned(AudioFailed(Armed(v)));
    } else {
      r := Alarm(v, key, ring);
    }
  }

  /** The scheduled alarm once its sound has loaded, and the rest of the
      pass after it. */
  method Alarm(v: ClockState, key: string, ring: seq<Session.Sample>) returns (r: PassEnd)
    ensures r == RingThenCarry(v, key, ring)
  {
    var w := Armed(v).(mixer := AlarmVolume);
    var st, effects, passes := Session.Ring(ring, v.volume);
    w := w.(lastMin := st.last, mixer := MixerAfter(AlarmVolume, effects));
    if Session.Active(st) {
      return Ringing(w);
    }
    Session.PassesBound(Session.Start, ring, v.volume);
    r := CheckAndRefresh(w, key, NatToString(ring[passes - 1].minute));
  }

  /** The timer check and the refresh of a pass. */
  method CheckAndRefresh(v: ClockState, key: string, thisMin: string) returns (r: PassEnd)
    ensures r == TimerAndRefresh(v, key, thisMin)
  {
    var w := v;
    if w.timer && key == w.turnOffLed {
      w := PinChange(w, "9", "off").(timer := false);
    }
    if w.speakersTimer {
      return Crashed;
    }
    var refresh := None;
    if MinuteChanged(thisMin, w.lastMin) {
      w := w.(lastMin := MinText(thisMin));
      refresh := Some(RefreshFor(thisMin));
      if IsReloadMinute(thisMin) {
        var read := Parse(w.file);
        if read.Err? {
          return Crashed;
        }
        w := w.(alarm := read.value);
        refresh := Some(Full);
      }
    }
    r := Carry(w, refresh);
  }

  /** One action, with the test alarm's loops run by `Session.Ring` and the
      Music loop by `Music`. */
  method RunCommand(v: ClockState, cmd: Navigation.Command, h: nat, m: nat,
                    test: seq<Session.Sample>, music: seq<MusicSample>) returns (r: Done)
    requires ValidTime(h, m)
    ensures r == Execute(v, cmd, h, m, test, music)
  {
    if cmd == Navigation.TestAlarm(true) {
      var a := Armed(v);
      var st, effects, passes := Session.Ring(test, v.volume);
      var w := a.(lastMin := st.last, mixer := MixerAfter(AlarmVolume, effects));
      r := if Session.Active(st) then Unfinished(w) else Goes(w);
    } else if cmd == Navigation.PlayMusic {
      var w, end := Music(MusicEntered(v), music);
      r := if end == Playing then Unfinished(w) else if end == SkipRaised || end == ListRaised then Raised else Goes(w);
    } else {
      r := Execute(v, cmd, h, m, test, music);
    }
  }

  /** The actions of a stretch, in order, until one raises or does not
      finish. */
  method RunCommands(v: ClockState, cmds: seq<Navigation.Command>, h: nat, m: nat,
                     test: seq<Session.Sample>, music: seq<MusicSample>) returns (r: Done)
    requires ValidTime(h, m)
    ensures r == ExecuteAll(v, cmds, h, m, test, music)
  {
    r := Goes(v);
    var i := 0;
    while i < |cmds| && r.Goes?
      invariant i <= |cmds|
      invariant ExecuteAll(v, cmds, h, m, test, music)
                  == if r.Goes? then ExecuteAll(r.v, cmds[i..], h, m, test, music) else r
      decreases |cmds| - i
    {
      assert cmds[i..][1..] == cmds[i + 1..];
      r := RunCommand(r.v, cmds[i], h, m, test, music);
      i := i + 1;
    }
  }

  /** One tick as the program runs it. */
  method RunTick(m: Machine, t: Tick) returns (r: Machine)
    requires Wellformed(m) && ValidTick(t)
    ensures r == Step(m, t)
  {
    if m.status != Running {
      return m;
    }
    var c := m.clock;
    if t.written.Some? {
      c := c.(file := t.written.value);
    }
    var first := Carry(c, None);
    if m.menu.stack == Navigation.AtHome {
      first := TimePart(c, t.hour, t.minute, t.loads, t.ring);
    }
    match first
    case Returned(v) => r := Machine(v, m.menu, MainReturned);
    case Crashed => r := m.(status := Raising);
    case Ringing(v) => r := Machine(v, m.menu, OutOfPasses);
    case Carry(v, _) =>
      var menu, cmds := Navigation.Poll(m.menu.stack, m.menu.count, t.buttons);
      var done := RunCommands(v, cmds, t.hour, t.minute, t.test, t.music);
      match done
      case Raised => r := Machine(v, menu, Raising);
      case Unfinished(w) => r := Machine(w, menu, OutOfPasses);
      case Goes(w) => r := Machine(w, menu, if menu.Halted? then PoweredOff else Running);
  }

  /** `main()`'s `while True`, on the ticks given. */
  method Serve(m0: Machine, ticks: seq<Tick>) returns (m: Machine)
    requires Wellformed(m0) && ValidTicks(ticks)
    ensures m == Trace(m0, ticks)
  {
    m := m0;
    var i := 0;
    while i < |ticks|
      invariant i <= |ticks| && Wellformed(m)
      invariant Trace(m0, ticks) == Trace(m, ticks[i..])
      decreases |ticks| - i
    {
      assert ticks[i..][1..] == ticks[i + 1..];
      assert ticks[i..][0] == ticks[i];
      StepValid(m, ticks[i]);
      m := RunTick(m, ticks[i]);
      i := i + 1;
    }
  }
}
