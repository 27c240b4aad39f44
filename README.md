# Clock-Pi: a verified model of the alarm clock's control loop

Clock-Pi is a Raspberry Pi alarm clock with four buttons (SW1 to SW4), an
e-ink display, relays on Arduino pins 12, 11, 10 and 9, and a speaker. Two
processes make it up:

- `Clock/clock.py` is the console. `main()` is one `while True` loop. Each
  pass checks whether the alarm is due, rings it (with a snooze), runs the
  pin-9 off timer and refreshes the display when the minute changes. At
  minute 30 it also re-reads the alarm file. It then polls the buttons
  through a tree of nested menu loops, which all share one `count`. The
  menus can start Conway's Game of Life (`papirus_gol`).
- `Web/web.py` is a Flask server. It holds the relay flags and switches
  them on `/api/<action>/<pin>/`. It reports a flag on
  `/api/info/<pin>/`. It reads and writes the alarm file
  `hour,minute,flag`. The clock switches its relays only through this
  server's pin requests.

The Dafny modules follow that structure:

| module | file | what it holds |
|---|---|---|
| `Wrappers` | wrappers.dfy | `Option` and `Result` |
| `Decimal` | decimal.dfy | Python 2's `str`, `int`, `split` and the `strftime` fields used |
| `Lm75` | lm75.dfy | the byte swap of the temperature sensor's word |
| `Relays` | relays.dfy | the server's pin flags and the `PinTable` class around them |
| `AlarmFile` | alarmfile.dfy | writing and reading the alarm file, and the web form and page |
| `Schedule` | schedule.dfy | the time strings: the due check, the minute-change test, the refresh kind, the reload minute and the timer key |
| `Buttons` | buttons.dfy | the four buttons |
| `Session` | session.dfy | the ringing and snooze loops, as a state machine and as the nested `while` loops |
| `Navigation` | menu.dfy | the menu loops: a stack of running loops and the shared `count`, as a step function and as a polling method |
| `AlarmClock` | clock.dfy | `main()`'s variables, start-up, one pass of its loop, the actions the menus start, and the loop itself |
| `Life` | life.dfy | the Game of Life: the grid, the seedings, the neighbour count, the tick and the game loop |

Each loop of the source is a method with a `while` or `for` loop. Each such
method is proved equal to a specification function, and the properties are
lemmas about those functions. The web server's pin flags form a class whose
`Control` method updates them in place.

Where the system's written description and its code disagree, the model
follows the code:

- When the ringing countdown runs out, the code neither stops the sound nor
  restores the volume, and it switches no relay (`Session.QuietRing`,
  `Session.RestoreOnlyOnOff`).
- "Off" restores the volume but leaves every relay as it was
  (`Session.RingPassSpec`, `AlarmClock.SessionAftermath`).
- A menu times out into its parent, carried there by the shared `count`,
  not into a target set per menu (`Navigation.ChildTimeoutCascades`).
- The refresh and the due check run at the top of `main()`'s pass only,
  while no menu loop is running (`AlarmClock.Step`).
- When a scheduled alarm's sound fails to load, `main()` returns and the
  clock stops (`AlarmClock.Step` runs `MainPassAsWritten`; see
  "## Findings").

## Model

| member | source | states |
|---|---|---|
| Decimal.NatToString | Clock/clock.py:214-216 | `%-H` and `%-M` are one or more digits without a leading zero; one digit below 10, two from 10 to 99 |
| Decimal.IntToString | Clock/clock.py:222 | `str(i)` is non-empty and starts with '-' exactly for negative `i` |
| Decimal.Pad2 | Clock/clock.py:215 | `%H` and `%M` are exactly two digits, equal to the unpadded form from 10 on |
| Decimal.NatToStringValue | Clock/clock.py:222 | the digits of `str(n)` denote `n` |
| Decimal.NatToStringInjective | Clock/clock.py:214-216 | distinct numbers have distinct unpadded forms |
| Decimal.Pad2Injective | Clock/clock.py:215 | distinct numbers below 100 have distinct padded forms |
| Decimal.ParseInt | Clock/clock.py:143-145 | `int(s)` succeeds only on a non-blank string; any other string is an error |
| Decimal.ParseIntAccepts | Clock/clock.py:143-145 | `int(s)` succeeds exactly when `s`, stripped of whitespace, is one or more decimal digits after at most one sign |
| Decimal.ParseIntDigits | Web/web.py:244-245 | `int` of a digit string is its value, leading zeros dropped |
| Decimal.ParseIntOfIntToString | Clock/clock.py:400-423 | `int(str(i)) == i` for every integer |
| Decimal.ParseIntTrailingNewline | Clock/clock.py:141-145 | a trailing newline in the file does not change what `int` reads |
| Decimal.Split | Clock/clock.py:142 | `split` gives at least one piece, and no piece holds the separator |
| Decimal.JoinSplit | Clock/clock.py:142 | joining the pieces with the separator gives back the text |
| AlarmFile.SplitThree | Clock/clock.py:400-420 | `a,b,c` splits back into `a`, `b`, `c` when none holds a comma |
| Lm75.Mask16 | Clock/clock.py:102 | `& 0xFFFF` gives a 16-bit word and keeps one that already is |
| Lm75.ByteSwap | Clock/clock.py:103 | the result is a 16-bit word whose high byte is the input's low byte and whose low byte is its high byte |
| Lm75.ByteSwapTwice | Web/web.py:88-89 | swapping twice gives back the masked reading |
| Relays.Flag | Web/web.py:272-296 | a flag exists exactly for the pin strings "12", "11", "10" and "9" |
| Relays.SetFlag | Web/web.py:307-333 | the named pin's flag takes the value, every other flag is kept, and an unknown pin changes nothing |
| Relays.RequestEffect | Web/web.py:307-366 | "on" sets the pin's flag, "off" clears it, "toggle" negates it, and the other three flags never change |
| Relays.RequestUnknown | Web/web.py:307-366 | an unknown action or pin string leaves all four flags as they were |
| Relays.RequestInvolution | Web/web.py:335-366 | toggling twice restores the flags; "on" twice and "off" twice equal once |
| Relays.PinTable.constructor | Web/web.py:469-472 | the server starts with all four flags false |
| Relays.PinTable.Control | Web/web.py:302-366 | the flags after a request are the request's effect on the flags before |
| Relays.PinTable.Info | Web/web.py:272-296 | answers "1" iff the pin's flag is set and "0" iff it is clear; no answer for other pins |
| AlarmFile.Parse | Clock/clock.py:140-145 | a read succeeds exactly when there are at least three words and `int` accepts the first three; the hour and minute are `int` of the first two and the flag is whether the third is non-zero |
| AlarmFile.NoSeparatorInNumber | Clock/clock.py:400-420 | `str` of a number holds no comma, colon or other character that is neither a digit nor '-' |
| AlarmFile.ParseRender | Clock/clock.py:396-423 | what the clock writes, it reads back unchanged |
| AlarmFile.FlagValue | Clock/clock.py:145 | the flag words "1" and "0" read back as 1 and 0 |
| AlarmFile.PostTime | Web/web.py:218-224 | the time comes from the two first pieces of `usr_time` split at ':', and otherwise from the `hour` and `minute` fields |
| AlarmFile.PostText | Web/web.py:216-233 | a file is written iff `on_or_off` is present and numeric and a time was found |
| AlarmFile.PostReadBack | Web/web.py:216-246 | for any form whose hour and minute hold no comma and are numbers, the readers get back `int` of each and whether `on_or_off` is non-zero |
| AlarmFile.PostCommaCorrupts | Web/web.py:216-246 | an hour of "1,2" with minute "3", posted off, is written as "1,2,3,0" and read back as 1:2 with the alarm on |
| AlarmFile.PostRoundTrip | Web/web.py:216-246 | a posted digit time `H:M` is read back as `int(H)`, `int(M)` and the same on/off state |
| AlarmFile.PostJoins | Web/web.py:219-233 | a posted `H:M` is written as `H,M,flag` |
| AlarmFile.ParseJoined | Web/web.py:241-246 | a line of two digit strings and a flag reads back as those numbers and that flag |
| AlarmFile.GetPage | Web/web.py:237-259 | the page shows "set for" iff the alarm is on and "not set for" iff it is off, and the time as `str(hour):str(minute)`; it fails exactly when the file does not parse |
| AlarmFile.TimeTextInjective | Web/web.py:257 | two different times never show the same `H:M` text |
| AlarmFile.PostThenGet | Web/web.py:214-259 | after posting `H:M`, the page shows `int(H):int(M)` with the posted wording |
| AlarmFile.PaddingDropped | Web/web.py:257 | a posted "07:05" is shown as "7:5" |
| AlarmFile.StatusMessage | Clock/clock.py:402-429 | the message after Toggle or Reload is "Alarm on at " when the alarm is set and "Alarm off at " otherwise, followed by `str(hour):str(minute)` |
| AlarmFile.StatusMessageInjective | Clock/clock.py:402-429 | two settings that differ in the flag, the hour or the minute never give the same message |
| Schedule.AltCheckTime | Clock/clock.py:215 | the padded time key is four digits, equal to the unpadded key `%-H%-M` when hour and minute are both 10 or more |
| Schedule.DueIff | Clock/clock.py:221-222 | for an in-range alarm, the two-key due check holds iff the alarm is set and the unpadded keys match |
| Schedule.DueAtAlarmTime | Clock/clock.py:221-222 | a set alarm is due at its own hour and minute |
| Schedule.NeverDueWhenOff | Clock/clock.py:221 | an alarm that is not set is never due |
| Schedule.KeyCollision | Clock/clock.py:222 | the key has no separator, so an alarm for 1:11 is also due at 11:01, and one for 11:01 at 1:11 |
| Schedule.FirstPassCounts | Clock/clock.py:224-248 | the "00" stored when an alarm starts always differs from the next `%-M` |
| Schedule.RefreshFullIff | Clock/clock.py:331-334 | a full refresh happens at minutes 0, 10, 20, 30, 40 and 50, and a partial one otherwise |
| Schedule.ReloadMinuteIff | Clock/clock.py:336 | the file is re-read at minute 30 and at no other minute |
| Schedule.OffKeyWraps | Clock/clock.py:986-987 | a one-hour timer armed at 23:30 expires at key "030", past midnight |
| Session.RingGuard | Clock/clock.py:243 | the ringing loop continues while `ten_mins != 0` and times out at 0, keeping the countdown and `lastMin` |
| Session.RingPass | Clock/clock.py:243-307 | a ringing pass keeps the session state valid |
| Session.SnoozePass | Clock/clock.py:279-307 | a snooze pass keeps the session state valid |
| Session.RingPassSpec | Clock/clock.py:243-277 | the countdown drops on a minute change; the sound restarts iff it has stopped; SW4 ends the session, stopping the sound and restoring the user's volume (the only volume ever restored); SW3 without SW4 stops the sound and starts the snooze |
| Session.SnoozePassSpec | Clock/clock.py:279-307 | a snooze pass never touches `ten_mins` or the sound; `five_mins` drops on a minute change; the snooze ends on SW4 or at zero, with `lastMin = 0` |
| Session.Step | Clock/clock.py:243-307 | a pass of whichever loop runs keeps the state valid |
| Session.Run | Clock/clock.py:243-307 | a run of passes keeps the state valid |
| Session.PassesBound | Clock/clock.py:243-307 | a running session reads at least one pass and never more than there are |
| Session.Ring | Clock/clock.py:243-307 | the nested `while` loops give what the session specification gives from the start |
| Session.PollRinging | Clock/clock.py:244-277 | the body of the ringing loop: its effects and its exit by SW4 or SW3 are those of one ringing pass, and never both |
| Session.Snooze | Clock/clock.py:275-307 | the snooze loop ends after its fifth minute change, or at once on SW4, handing `lastMin = 0` back to the ringing loop's guard |
| Session.SnoozeStep | Clock/clock.py:279-305 | one snooze pass extends the run, and leaves or stays in the loop as the specification says |
| Session.PollSnooze | Clock/clock.py:280-303 | the body of the snooze loop: its effects and its exit by SW4 are those of one snooze pass |
| Session.QuietRing | Clock/clock.py:243-256 | with no button pressed, the countdown drops once per minute change; a time-out neither stops the sound nor restores the volume |
| Session.ElevenTransitions | Clock/clock.py:224-250 | left alone, the alarm times out iff there were eleven or more minute changes |
| Session.RestoreOnlyOnOff | Clock/clock.py:262-271 | over any run, the volume is restored iff the session ended by SW4 |
| Session.QuietSnooze | Clock/clock.py:279-290 | while snoozed with no button pressed, `five_mins` drops once per minute change and `ten_mins` is untouched |
| Session.ForcedDecrement | Clock/clock.py:307 | snooze's integer 0 in `lastMin` makes the next ringing pass count down whatever the minute |
| Navigation.Width | Clock/clock.py:349-1072 | every loop tests three or four buttons |
| Navigation.EndPass | Clock/clock.py:434-435 | the end of a pass keeps the loop stack valid and issues no command |
| Navigation.HomeEnters | Clock/clock.py:349-911 | the main loop's buttons only open submenus |
| Navigation.Act | Clock/clock.py:349-1072 | the action of a button that reads low keeps the loop stack valid |
| Navigation.Scan | Clock/clock.py:349-1072 | the rest of a pass keeps the loop stack valid |
| Navigation.Step | Clock/clock.py:349-1072 | a stretch of the innermost loop keeps the loop stack valid |
| Navigation.Run | Clock/clock.py:349-1072 | a run of stretches keeps the loop stack valid |
| Navigation.ValidPush | Clock/clock.py:351-357 | a stack with one more frame is valid iff it is the main loop alone or a submenu on a valid stack |
| Navigation.Poll | Clock/clock.py:357-483 | testing the buttons in order and acting on the first low one gives the specification's stretch `Scan` |
| Navigation.Navigate | Clock/clock.py:346-1072 | the menus driven by button readings give what the specification `Run` gives from the start |
| Navigation.HaltedStays | Clock/clock.py:460-477 | after Shutdown or Reboot nothing happens |
| Navigation.BackFirst | Clock/clock.py:362-367 | every submenu reads SW4 first, and SW4 means Back |
| Navigation.BackHasPriority | Clock/clock.py:362-367 | a submenu that starts a pass with SW4 low leaves its loop at once, whatever else reads low; the parent becomes innermost with `count` unchanged |
| Navigation.EnterResetsCount | Clock/clock.py:372-378 | opening a submenu sets `count` to 0 and starts the new loop at its first test |
| Navigation.ScanIdle | Clock/clock.py:357-483 | with no button low, a pass runs through all its tests to the end |
| Navigation.IdleTimeout | Clock/clock.py:378-435 | a submenu left alone with `count < Limit` runs exactly `Limit - count` more passes, with `count` growing by one each, and then ends |
| Navigation.IdlePass | Clock/clock.py:434-435 | an idle pass adds one to `count` and ends the loop once it reaches the bound |
| Navigation.ChildTimeoutCascades | Clock/clock.py:378-483 | a submenu that timed out leaves `count` at its bound; its idle parent finishes the rest of the pass that opened the child and leaves at that pass's end, one level per sample |
| Navigation.IdleStepRank | Clock/clock.py:349-1072 | an idle pass brings the menus strictly closer to the main loop at rest, and at rest they stay |
| Navigation.IdleReturnsHome | Clock/clock.py:349-1072 | left alone long enough, the menus always return to the main loop at rest and issue no command |
| Navigation.VolumeDownTail | Clock/clock.py:798-814 | Volume's last test is Down, and it is read after Up in the same pass |
| Navigation.VolumeUpResetsCount | Clock/clock.py:782-814 | in Volume, Up resets `count` before the pass adds one, and Down is still read in the same pass |
| Navigation.BackFromLongVolume | Clock/clock.py:679-689 | Back from Volume after more than 28 passes also ends Stuff on its next pass, because the loops share `count` |
| AlarmClock.VolumeStep | Clock/clock.py:784-811 | Up adds 2 capped at 100, Down takes 2 floored at 0, the even levels in 0..100 are kept, and the two presses undo each other away from the ends |
| AlarmClock.PressesClamp | Clock/clock.py:784-811 | `n` presses of Up give `min(level + 2n, 100)` and `n` presses of Down give `max(level - 2n, 0)` |
| AlarmClock.Boot | Clock/clock.py:140-202 | start-up succeeds iff the file parses; it holds the file's alarm, `lastMin = "00"`, no timer, and the volume and mixer at 80 |
| AlarmClock.TimerCheckSpec | Clock/clock.py:313-321 | the timer fires iff it is set and the key matches: pin 9 goes off and the timer clears, nothing else changes; otherwise nothing changes |
| AlarmClock.TimerFiresOnce | Clock/clock.py:313-316 | a fired timer stays quiet on a second check |
| AlarmClock.TimerFiresAtDeadline | Clock/clock.py:982-1009 | a timer armed for `n` hours fires at the minute `n` hours later, past midnight too |
| AlarmClock.RearmOverwrites | Clock/clock.py:982-1009 | re-arming replaces the single deadline |
| AlarmClock.Reloaded | Clock/clock.py:417-423 | Reload succeeds iff the file parses |
| AlarmClock.ToggleRoundTrip | Clock/clock.py:393-423 | Toggle flips only the set flag; Reload reads back what Toggle wrote; toggling twice restores the alarm |
| AlarmClock.RefreshSpec | Clock/clock.py:326-342 | a refresh happens iff the minute changed, of the kind the minute string calls for; only minute "30" re-reads the file; a second refresh in the same minute does nothing |
| AlarmClock.RefreshValid | Clock/clock.py:326-342 | a refresh keeps the invariant, the relays and the timer |
| AlarmClock.ArmedSpec | Clock/clock.py:223-230 | arming the alarm switches pins 12, 11 and 10 on and 9 off, clears the speaker timer, sets `lastMin = "00"`, and changes nothing else |
| AlarmClock.MixerAfterRestores | Clock/clock.py:270 | the mixer ends at the user's volume iff a session restored it |
| AlarmClock.SessionAftermath | Clock/clock.py:223-307 | a session switches no relay and leaves timers and alarm alone; the mixer returns to the user's level iff the alarm was turned off with SW4, and stays at the alarm level after a time-out |
| AlarmClock.MusicVolume | Clock/clock.py:876-900 | in Music, SW2 and SW1 move the volume as in the Volume menu, and nothing else changes |
| AlarmClock.MusicStepEnds | Clock/clock.py:839-875 | a Music pass ends the loop exactly on SW4 or a file that fails to load, and then pin 11 is off; it raises exactly when a stopped song finds the Music directory missing or empty (`choice(listdir(...))` is outside what the `except pygame.error` catches), or when a skip finds no file or fails to load one |
| AlarmClock.MusicStepSpec | Clock/clock.py:825-900 | a Music pass keeps the invariant, and one without SW2 or SW1 keeps the volume |
| AlarmClock.MusicStepKeeps | Clock/clock.py:825-900 | a Music pass only touches pin 11, the volume and `lastMin` |
| AlarmClock.MusicRunValid | Clock/clock.py:819-900 | however long the music plays, the invariant holds, and a loop ended by SW4 or a failed load leaves pin 11 off |
| AlarmClock.Music | Clock/clock.py:825-900 | the Music `while True` loop gives what the specification `MusicRun` gives |
| AlarmClock.ExecuteValid | Clock/clock.py:383-1069 | every action keeps the invariant; only Reload on a malformed file and Music (no file to pick, or a failed skip) can raise |
| AlarmClock.MusicWithoutSongsRaises | Clock/clock.py:839-845 | with no song playing and the Music directory missing or empty, the Music action raises on its first pass |
| AlarmClock.ExecuteTimerAndPins | Clock/clock.py:971-1043 | the pin-11 toggle and All off disarm the timer, All off switches every relay off, and the volume and alarm actions touch neither |
| AlarmClock.AudioFailureEndsMain | Clock/clock.py:233-240 | as written, when the alarm sound fails to load on a scheduled alarm, `main()` returns |
| AlarmClock.AudioFailureCarriesOn | Clock/clock.py:233-240 | corrected, the pass goes on with pin 11 off again and the display refreshed |
| AlarmClock.SessionKeepsAlarm | Clock/clock.py:221-342 | a session ending in the alarm's minute leaves the alarm set, unless the file was re-read |
| AlarmClock.TimerAndRefreshValid | Clock/clock.py:313-342 | the timer check and the refresh raise only on a malformed file re-read at minute 30, and keep the invariant |
| AlarmClock.MainPassValid | Clock/clock.py:210-342 | the time-driven part of a pass as written raises only on a malformed file re-read at minute 30, keeps the invariant, and returns from `main()` exactly when a due alarm's sound fails to load; the corrected pass never returns and raises and keeps the invariant alike |
| AlarmClock.PostReadAtReload | Clock/clock.py:325-341 | after the web server writes a form, the pass that re-reads the file at minute 30 takes the posted hour, minute and on/off bit as its alarm and redraws fully |
| AlarmClock.RingThenCarryValid | Clock/clock.py:242-342 | a scheduled session and the rest of its pass raise only on the minute-30 reload, and keep the invariant |
| AlarmClock.Booted | Clock/clock.py:140-208 | the program enters its loop well formed and running |
| AlarmClock.ExecuteAllValid | Clock/clock.py:349-1072 | a stretch's actions in order keep the invariant unless one raises |
| AlarmClock.PostReachesClock | Clock/clock.py:325-341 | a tick at minute 30 carrying the web server's write of a form, with no menu action started, leaves the clock holding the posted alarm |
| AlarmClock.StepValid | Clock/clock.py:208-1072 | a pass as written, after any write by the web server, keeps the program well formed, and a stopped program (one whose `main()` returned among them) stays stopped |
| AlarmClock.TraceValid | Clock/clock.py:208-1072 | along any run of the program as written, `speakers_timer` is never set and the volume stays even within 0..100 |
| AlarmClock.TimePart | Clock/clock.py:210-342 | the alarm check, the session, the timer and the refresh, step by step, give `MainPassAsWritten`, returning from `main()` when the sound fails to load |
| AlarmClock.Alarm | Clock/clock.py:242-342 | a scheduled alarm with its sound loaded, and the rest of its pass, give `RingThenCarry` |
| AlarmClock.CheckAndRefresh | Clock/clock.py:313-342 | the timer check and the refresh give `TimerAndRefresh` |
| AlarmClock.RunCommand | Clock/clock.py:383-1069 | one action, with its loops run by methods, gives `Execute` |
| AlarmClock.RunCommands | Clock/clock.py:349-1072 | a stretch's actions in order give `ExecuteAll` |
| AlarmClock.RunTick | Clock/clock.py:208-1072 | one pass as the program runs it, after the web server's write if any, gives `Step`, the pass as written |
| AlarmClock.Serve | Clock/clock.py:208-1072 | `main()`'s `while True`, on the passes given, gives `Trace` of the passes as written |
| Life.BlankSpec | Clock/clock.py:1116-1121 | the blank board has an entry for exactly the cells of the grid |
| Life.GenerateGrid | Clock/clock.py:1116-1121 | the grid has a dead entry for every `(x, y)` with `x < width / 5` and `y < height / 5`, and for nothing else |
| Life.Place | Clock/clock.py:1130-1182 | placing a pattern sets its cells alive and keeps every other entry |
| Life.Seeded | Clock/clock.py:1125-1233 | "random" makes each grid cell alive iff its coin says so; "R-pentomino" and "Gosper" set their patterns alive on the dead grid; any other name leaves it dead |
| Life.SeededKeeps | Clock/clock.py:1228-1233 | seeding keeps a complete board complete |
| Life.Initial | Clock/clock.py:1225-1233 | the starting board is complete |
| Life.PatternsFit | Clock/clock.py:1130-1182 | on a 264 x 176 panel both patterns lie in the grid; on a 128 x 96 panel the R-pentomino lies outside it |
| Life.OffsetIndex | Clock/clock.py:1186-1187 | each of the nine offsets is visited once, in the loops' order |
| Life.GetNeighbours | Clock/clock.py:1184-1196 | the two nested loops count the live in-grid cells around the cell, excluding itself |
| Life.Column | Clock/clock.py:1187-1195 | the inner loop adds the live cells of one column of offsets |
| Life.NeighboursBound | Clock/clock.py:1184-1196 | the neighbour count is between 0 and 8 |
| Life.NeighboursIgnore | Clock/clock.py:1184-1196 | the count ignores the cell's own entry, off-grid entries and entries outside the 3 x 3 block |
| Life.NeighboursSees | Clock/clock.py:1184-1196 | making a dead or missing neighbour in the grid alive raises the count by exactly one |
| Life.NextSpec | Clock/clock.py:1199-1216 | a tick keeps the keys; a cell is alive next iff it was alive with 2 or 3 live neighbours or dead with exactly 3 |
| Life.Tick | Clock/clock.py:1199-1216 | the loop filling a new dictionary gives `Next` |
| Life.GenerationsKeep | Clock/clock.py:1239-1258 | every generation has the first one's keys, so a complete board stays complete |
| Life.Play | Clock/clock.py:1100-1266 | the game runs one generation per pass until the first pass reading SW4 low, and ends on the board that many generations from the seeded grid |
| Life.Evolve | Clock/clock.py:1239-1266 | the game loop stops at the first SW4 reading, after one generation per earlier pass |
| Life.Advance | Clock/clock.py:1257-1258 | a pass's tick turns the `n`-th generation into the next one |

## Left out

- Drawing on the e-ink panel, fonts and the texts of the menu bars are not modelled. Only the refresh kind is, as `Schedule.Refresh`.
- The clock reads the time through `datetime.now()`. The model takes it as parameters.
- Button readings, "sound still playing", and whether a sound file loads are inputs of the model.
- The `sleep` calls are left out. A loop pass is one element of the input sequence.
- `amixer` calls are modelled as the `mixer` level only.
- `pygame` playback is modelled as effects (`Play`, `Stop`, `QuitMixer`, `RestoreVolume`).
- Which song `choice(listdir(...))` picks, and its display name, are not modelled. Whether the directory gives anything to pick from is an input (`MusicSample.listed`).
- The random seeding of the Game of Life (`randint`) is given as the set `coins` of cells that come up alive.
- A button reading is taken once per test. The source reads the pin again each time and can see a change in between.
- The root check, signal handling, the final `try`/`except` around `main()`, and `GPIO.cleanup` are left out as process plumbing.
- The Shutdown and Reboot shell calls are modelled only as the program stopping (`Navigation.Halted`).
- The readouts (CPU, RAM, uptime, sensor and CPU temperature) are commands without a state change. They are floating point, psutil and shell output.
- For the same reason, `regdata2float`, `toFah`, `get_up_stats` and the web pages' temperature figures are not modelled. Only the integer byte swap of the LM75 word is.
- The web server's `board.digital[...].write` calls are left out, as are the Flask routing, redirects and templates. The flags are what is modelled.
- Concurrency between the two processes is modelled only at pass granularity. The clock's pin requests act on the flags one at a time, and a web server write of the alarm file replaces the clock's view of it whole before a pass (`Tick.written`). A write landing halfway through a read is not modelled.
- AlarmFile.PostText: text is taken as ASCII. Python 2's `str()` of a form field with non-ASCII characters raises after `open(..., "w")` has already emptied the file, so the clock's next read raises too. This path is not modelled: the model writes the characters.
- Decimal.ParseInt: Python 2 `int()` also accepts non-ASCII decimal digits and whitespace between the sign and the digits ("- 7"). The model accepts only ASCII digits right after the sign.
- `speakers_timer` branch (Clock/clock.py:318-321): `turn_off_speakers` is never assigned. The model proves that this branch never runs (`AlarmClock.TraceValid`), and does not model its failure.
- AlarmClock.Serve: runs on a finite sequence of passes, while the source loops forever. A loop still running when the passes run out ends in `OutOfPasses` (or `Unfinished` for an action).
- Session.Ring: same finite-input restriction. A loop still running when the passes run out ends in `OutOfPasses` (or `Unfinished` for an action).
- Life.Play: runs for as many passes as `back` holds. The source loops until SW4.
- Life values are typed `Bit` (0 or 1). The source's branches for a value that is neither therefore cannot arise: such a cell simply gets no entry in `tick`.
- Life.GetNeighbours: requires a complete board. The source raises `KeyError` on a missing in-grid cell, which its own grid never has.
- On a small panel the Game of Life patterns add entries outside the grid. `Life.PatternsFit` shows this, and the count never reads those entries.
- Life.Column: the inner `for y` loop of `getNeighbours` is its own method. The loops are otherwise the source's.
- AlarmClock.Boot: the model of a malformed alarm file at start-up is only "the program does not start". What raising prints is not modelled.

## Findings

| source | as written | input that shows it | evidently intended | confidence | as-written member | corrected member |
|---|---|---|---|---|---|---|
| Clock/clock.py:233-240 | when the scheduled alarm's sound fails to load, `break` leaves `main()`'s own `while True`, so `main()` returns and the clock stops for good | an alarm set for the current minute with a missing or unreadable alarm sound file | abandon only the alarm (as the same `break` does inside the Volume menu's Test, Clock/clock.py:705-712) and go on with the timer check, the refresh and the menus | not executed | AlarmClock.AudioFailureEndsMain | AlarmClock.AudioFailureCarriesOn |
