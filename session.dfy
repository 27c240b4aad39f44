/** The alarm session: the ringing loop with its countdown `ten_mins` and the
    snooze loop nested in it with `five_mins`. Both loops poll the clock and
    the buttons on every pass; a countdown drops only on a pass whose `%-M`
    string differs from `lastMin`. The same code runs for the scheduled alarm
    and for the Volume menu's "Test" action. */
module Session {

  import opened Buttons
  import opened Decimal
  import opened Schedule

  /** What one pass of the ringing or the snooze loop observes: the minute
      of `datetime.now()`, the buttons held low, and whether the mixer is
      still playing. */
  datatype Sample = Sample(minute: nat, pressed: set<Button>, busy: bool)

  /** `now.strftime("%-M")`. */
  function MinuteText(s: Sample): string { NatToString(s.minute) }

  datatype Mode = Ringing | Snoozing | TimedOut | TurnedOff

  /** The loop variables: which loop runs (or how the session ended),
      `ten_mins`, `five_mins` and `lastMin`. */
  datatype State = State(mode: Mode, ten: nat, five: nat, last: LastMin)

  datatype Screen = RingScreen | SnoozeScreen | OffScreen

  /** What a pass does outside its variables: display updates, the mixer,
      and the `amixer` call that restores the user's volume. No pass ever
      switches a relay. */
  datatype Effect = Draw(screen: Screen, refresh: Refresh) | Play | Stop | QuitMixer
                  | RestoreVolume(level: int)

  datatype Outcome = Outcome(state: State, effects: seq<Effect>)

  /** The variables as the ringing loop is entered: "Yes, eleven because we
      update display and subtract one immediately". */
  const Start := State(Ringing, 11, 0, MinText("00"))

  predicate Active(st: State) { st.mode == Ringing || st.mode == Snoozing }

  /** A running loop's guard holds: `ten_mins != 0` while ringing,
      `five_mins != 0` while snoozing. */
  predicate Valid(st: State)
  {
    (st.mode == Ringing ==> st.ten > 0) && (st.mode == Snoozing ==> st.five > 0)
  }

  /** The ringing loop's guard `while ten_mins != 0`, evaluated after a pass. */
  function RingGuard(st: State): (r: State)
    requires st.mode == Ringing
    ensures Valid(r) && r.ten == st.ten && r.last == st.last
    ensures r.mode == (if st.ten == 0 then TimedOut else Ringing)
  {
    if st.ten == 0 then st.(mode := TimedOut) else st
  }

  /** One pass of the ringing loop. */
  function RingPass(st: State, s: Sample, volume: int): (o: Outcome)
    requires st.mode == Ringing && st.ten > 0
    ensures Valid(o.state)
  {
    var thisMin := MinuteText(s);
    var changed := MinuteChanged(thisMin, st.last);
    var ten := if changed then st.ten - 1 else st.ten;
    var last := if changed then MinText(thisMin) else st.last;
    var redraw := if changed then [Draw(RingScreen, Full)] else [];
    var play := if !s.busy then [Play] else [];
    if SW4 in s.pressed then
      Outcome(State(TurnedOff, ten, st.five, last),
              redraw + play + [Stop, QuitMixer, Draw(OffScreen, Full), RestoreVolume(volume)])
    else if SW3 in s.pressed then
      Outcome(State(Snoozing, ten, 5, IntZero), redraw + play + [Stop])
    else
      Outcome(RingGuard(State(Ringing, ten, st.five, last)), redraw + play)
  }

  /** One pass of the snooze loop. Leaving it, by the countdown or by SW4
      ("Back"), resets `lastMin` to the integer 0 and hands back to the
      ringing loop's guard with `ten_mins` as it was. */
  function SnoozePass(st: State, s: Sample): (o: Outcome)
    requires st.mode == Snoozing && st.five > 0
    ensures Valid(o.state)
  {
    var thisMin := MinuteText(s);
    var changed := MinuteChanged(thisMin, st.last);
    var five := if changed then st.five - 1 else st.five;
    var last := if changed then MinText(thisMin) else st.last;
    var redraw := if changed then [Draw(SnoozeScreen, RefreshFor(thisMin))] else [];
    if SW4 in s.pressed then
      Outcome(RingGuard(State(Ringing, st.ten, five, IntZero)), redraw + [Draw(RingScreen, Full)])
    else if five == 0 then
      Outcome(RingGuard(State(Ringing, st.ten, five, IntZero)), redraw)
    else
      Outcome(State(Snoozing, st.ten, five, last), redraw)
  }

  /** What one ringing pass does: the countdown drops on a minute change;
      the sound restarts when it has stopped; SW4 ("Off") ends the session,
      stopping the sound and restoring the user's volume; otherwise SW3
      ("Snooze") stops the sound and enters the snooze loop. */
  lemma RingPassSpec(st: State, s: Sample, volume: int)
    requires st.mode == Ringing && st.ten > 0
    ensures RingPass(st, s, volume).state.ten ==
              if MinuteChanged(MinuteText(s), st.last) then st.ten - 1 else st.ten
    ensures Play in RingPass(st, s, volume).effects <==> !s.busy
    ensures RingPass(st, s, volume).state.mode == TurnedOff <==> SW4 in s.pressed
    ensures RingPass(st, s, volume).state.mode == Snoozing <==> SW4 !in s.pressed && SW3 in s.pressed
    ensures RingPass(st, s, volume).state.mode == Snoozing ==>
              RingPass(st, s, volume).state.five == 5 && RingPass(st, s, volume).state.last == IntZero
    ensures RestoreVolume(volume) in RingPass(st, s, volume).effects <==>
              RingPass(st, s, volume).state.mode == TurnedOff
    ensures forall v :: RestoreVolume(v) in RingPass(st, s, volume).effects ==> v == volume
    ensures Stop in RingPass(st, s, volume).effects <==> SW4 in s.pressed || SW3 in s.pressed
    ensures QuitMixer in RingPass(st, s, volume).effects <==> SW4 in s.pressed
  {
  }

  /** What one snooze pass does: it never touches `ten_mins` or the sound;
      `five_mins` drops on a minute change; the loop ends on SW4 ("Back") or
      on the fifth transition, and then the ringing loop resumes (or ends, if
      `ten_mins` was already 0) with `lastMin = 0`. */
  lemma SnoozePassSpec(st: State, s: Sample)
    requires st.mode == Snoozing && st.five > 0
    ensures SnoozePass(st, s).state.ten == st.ten
    ensures SnoozePass(st, s).state.mode == Snoozing ==>
              SnoozePass(st, s).state.five ==
                if MinuteChanged(MinuteText(s), st.last) then st.five - 1 else st.five
    ensures SnoozePass(st, s).state.mode != Snoozing ==> SnoozePass(st, s).state.last == IntZero
    ensures SnoozePass(st, s).state.mode != Snoozing ==>
              SnoozePass(st, s).state.mode == (if st.ten == 0 then TimedOut else Ringing)
    ensures SnoozePass(st, s).state.mode != Snoozing <==>
              SW4 in s.pressed || (st.five == 1 && MinuteChanged(MinuteText(s), st.last))
    ensures Play !in SnoozePass(st, s).effects && Stop !in SnoozePass(st, s).effects
    ensures QuitMixer !in SnoozePass(st, s).effects
    ensures forall v :: RestoreVolume(v) !in SnoozePass(st, s).effects
  {
  }

  /** One pass of whichever loop is running; a finished session stays put. */
  function Step(st: State, s: Sample, volume: int): (o: Outcome)
    requires Valid(st)
    ensures Valid(o.state)
  {
    match st.mode
    case Ringing => RingPass(st, s, volume)
    case Snoozing => SnoozePass(st, s)
    case _ => Outcome(st, [])
  }

  /** A run of the session: where it stopped, what it did on the way, and
      how many passes it took (the last of them read the last sample it
      used). */
  datatype Ran = Ran(state: State, effects: seq<Effect>, passes: nat)

  /** The session driven by a sequence of passes, until it ends or the
      samples run out. */
  function Run(st: State, samples: seq<Sample>, volume: int): (o: Ran)
    requires Valid(st)
    ensures Valid(o.state)
    decreases |samples|
  {
    if !Active(st) || samples == [] then Ran(st, [], 0)
    else
      var first := Step(st, samples[0], volume);
      var rest := Run(first.state, samples[1..], volume);
      Ran(rest.state, first.effects + rest.effects, 1 + rest.passes)
  }

  /** A running session reads at least one sample, and never more than
      there are. */
  lemma {:induction false} PassesBound(st: State, samples: seq<Sample>, volume: int)
    requires Valid(st)
    ensures Run(st, samples, volume).passes <= |samples|
    ensures Active(st) && samples != [] ==> Run(st, samples, volume).passes >= 1
    decreases |samples|
  {
    if Active(st) && samples != [] {
      PassesBound(Step(st, samples[0], volume).state, samples[1..], volume);
    }
  }

  /** From `from` at pass `i0`, the passes up to `i` produced `effects` and
      left the session in `to`: the whole run from `from` is those effects
      followed by the run from `to`, and as many passes again. */
  ghost predicate Leads(samples: seq<Sample>, volume: int, from: State, i0: nat,
                        to: State, i: nat, effects: seq<Effect>)
    requires Valid(from) && Valid(to) && i0 <= i <= |samples|
  {
    var rest := Run(to, samples[i..], volume);
    Run(from, samples[i0..], volume) == Ran(rest.state, effects + rest.effects, (i - i0) + rest.passes)
  }

  lemma LeadsHere(samples: seq<Sample>, volume: int, st: State, i: nat)
    requires Valid(st) && i <= |samples|
    ensures Leads(samples, volume, st, i, st, i, [])
  {
    assert [] + Run(st, samples[i..], volume).effects == Run(st, samples[i..], volume).effects;
  }

  /** One more pass keeps `Leads`. */
  lemma Advance(samples: seq<Sample>, volume: int, from: State, i0: nat, st: State, i: nat,
                effects: seq<Effect>, o: Outcome)
    requires Valid(from) && Valid(st) && Active(st) && i0 <= i < |samples|
    requires Leads(samples, volume, from, i0, st, i, effects)
    requires o == Step(st, samples[i], volume)
    ensures Leads(samples, volume, from, i0, o.state, i + 1, effects + o.effects)
  {
    assert samples[i..][0] == samples[i];
    assert samples[i..][1..] == samples[i + 1..];
    var rest := Run(o.state, samples[i + 1..], volume);
    assert effects + (o.effects + rest.effects) == effects + o.effects + rest.effects;
  }

  lemma Chain(samples: seq<Sample>, volume: int, a: State, i0: nat, b: State, i1: nat,
              c: State, i2: nat, e1: seq<Effect>, e2: seq<Effect>)
    requires Valid(a) && Valid(b) && Valid(c) && i0 <= i1 <= i2 <= |samples|
    requires Leads(samples, volume, a, i0, b, i1, e1)
    requires Leads(samples, volume, b, i1, c, i2, e2)
    ensures Leads(samples, volume, a, i0, c, i2, e1 + e2)
  {
    var rest := Run(c, samples[i2..], volume);
    assert e1 + (e2 + rest.effects) == e1 + e2 + rest.effects;
  }

  /** The ringing loop as the clock runs it: the scheduled alarm once the
      sound has loaded (the caller has switched the relays and set the alarm
      volume). `volume` is the user's `volume_level`, restored only when the
      alarm is turned off. The result is what the session specification
      `Run` gives from `Start`. */
  method Ring(samples: seq<Sample>, volume: int) returns (st: State, effects: seq<Effect>, passes: nat)
    ensures Ran(st, effects, passes) == Run(Start, samples, volume)
  {
    var tenMins: nat := 11;
    var fiveMins: nat := 0;
    var lastMin: LastMin := MinText("00");
    var i := 0;
    effects := [];
    LeadsHere(samples, volume, Start, 0);
    while tenMins != 0 && i < |samples|
      invariant i <= |samples|
      invariant Leads(samples, volume, Start, 0, RingGuard(State(Ringing, tenMins, fiveMins, lastMin)), i, effects)
      decreases |samples| - i
    {
      ghost var before := State(Ringing, tenMins, fiveMins, lastMin);
      var passEffects, off, snoozed;
      tenMins, lastMin, passEffects, off, snoozed := PollRinging(fiveMins, tenMins, lastMin, samples[i], volume);
      ghost var pass := RingPass(before, samples[i], volume);
      Advance(samples, volume, Start, 0, before, i, effects, pass);
      effects := effects + passEffects;
      i := i + 1;
      if off {
        st := State(TurnedOff, tenMins, fiveMins, lastMin);
        passes := i;
        return;
      }
      if snoozed {
        var j, snoozeEffects, finished;
        ghost var next;
        j, fiveMins, lastMin, snoozeEffects, finished, next := Snooze(samples, volume, i, tenMins);
        Chain(samples, volume, Start, 0, pass.state, i, next, j, effects, snoozeEffects);
        effects := effects + snoozeEffects;
        i := j;
        if !finished {
          st := State(Snoozing, tenMins, fiveMins, lastMin);
          assert samples[i..] == [];
          passes := i;
          return;
        }
        lastMin := IntZero;
      }
    }
    st := RingGuard(State(Ringing, tenMins, fiveMins, lastMin));
    assert samples[i..] == [] || !Active(st);
    passes := i;
  }

  /** The body of the ringing loop, up to the snooze loop: redraw and count
      down on a new minute, restart the sound if it stopped, then read SW4
      ("Off") and SW3 ("Snooze"). */
  method PollRinging(ghost five: nat, ten: nat, last: LastMin, s: Sample, volume: int)
    returns (tenMins: nat, lastMin: LastMin, effects: seq<Effect>, off: bool, snoozed: bool)
    requires ten > 0
    ensures effects == RingPass(State(Ringing, ten, five, last), s, volume).effects
    ensures !(off && snoozed)
    ensures off ==> RingPass(State(Ringing, ten, five, last), s, volume).state
                      == State(TurnedOff, tenMins, five, lastMin)
    ensures snoozed ==> RingPass(State(Ringing, ten, five, last), s, volume).state
                          == State(Snoozing, tenMins, 5, lastMin)
    ensures !off && !snoozed ==> RingPass(State(Ringing, ten, five, last), s, volume).state
                                   == RingGuard(State(Ringing, tenMins, five, lastMin))
  {
    tenMins, lastMin, effects := ten, last, [];
    var thisMin := NatToString(s.minute);
    if MinuteChanged(thisMin, lastMin) {
      tenMins := tenMins - 1;
      effects := effects + [Draw(RingScreen, Full)];
      lastMin := MinText(thisMin);
    }
    if !s.busy {
      effects := effects + [Play];
    }
    off, snoozed := false, false;
    if SW4 in s.pressed {
      effects := effects + [Stop, QuitMixer, Draw(OffScreen, Full), RestoreVolume(volume)];
      off := true;
      return;
    }
    if SW3 in s.pressed {
      effects := effects + [Stop];
      lastMin := IntZero;
      snoozed := true;
    }
  }

  /** The snooze loop, entered at pass `i0` with `five_mins = 5` and
      `lastMin = 0`. It ends after five minute transitions, or at once when
      SW4 ("Back") is read; `finished` is false only when the passes run out
      first. A finished snooze hands `lastMin = 0` back to the ringing loop,
      whose guard then sees `ten_mins` as the snooze found it. */
  method Snooze(samples: seq<Sample>, volume: int, i0: nat, tenMins: nat)
    returns (i: nat, fiveMins: nat, lastMin: LastMin, effects: seq<Effect>, finished: bool, ghost next: State)
    requires i0 <= |samples|
    ensures i0 <= i <= |samples| && Valid(next)
    ensures !finished ==> i == |samples| && fiveMins > 0
    ensures finished ==> next == RingGuard(State(Ringing, tenMins, fiveMins, IntZero))
    ensures !finished ==> next == State(Snoozing, tenMins, fiveMins, lastMin)
    ensures Leads(samples, volume, State(Snoozing, tenMins, 5, IntZero), i0, next, i, effects)
  {
    ghost var from := State(Snoozing, tenMins, 5, IntZero);
    fiveMins := 5;
    lastMin := IntZero;
    i := i0;
    effects := [];
    var back := false;
    next := from;
    LeadsHere(samples, volume, from, i0);
    while fiveMins != 0 && !back && i < |samples|
      invariant i0 <= i <= |samples| && Valid(next)
      invariant fiveMins != 0 && !back ==> next == State(Snoozing, tenMins, fiveMins, lastMin)
      invariant fiveMins == 0 || back ==> next == RingGuard(State(Ringing, tenMins, fiveMins, IntZero))
      invariant Leads(samples, volume, from, i0, next, i, effects)
      decreases |samples| - i
    {
      fiveMins, lastMin, effects, back, next := SnoozeStep(samples, volume, i0, from, next, i, effects,
                                                           tenMins, fiveMins, lastMin);
      i := i + 1;
    }
    finished := fiveMins == 0 || back;
  }


  /** One pass of the snooze loop, and what it adds to the run so far. */
  method SnoozeStep(samples: seq<Sample>, volume: int, ghost i0: nat, ghost from: State, ghost cur: State,
                    i: nat, effects: seq<Effect>, tenMins: nat, five: nat, last: LastMin)
    returns (fiveMins: nat, lastMin: LastMin, effects': seq<Effect>, back: bool, ghost next: State)
    requires Valid(from) && i0 <= i < |samples| && five != 0
    requires cur == State(Snoozing, tenMins, five, last)
    requires Leads(samples, volume, from, i0, cur, i, effects)
    ensures Valid(next) && Leads(samples, volume, from, i0, next, i + 1, effects')
    ensures back || fiveMins == 0 ==> next == RingGuard(State(Ringing, tenMins, fiveMins, IntZero))
    ensures !back && fiveMins != 0 ==> next == State(Snoozing, tenMins, fiveMins, lastMin)
  {
    ghost var pass := SnoozePass(cur, samples[i]);
    Advance(samples, volume, from, i0, cur, i, effects, pass);
    var passEffects;
    fiveMins, lastMin, passEffects, back := PollSnooze(tenMins, five, last, samples[i]);
    effects' := effects + passEffects;
    next := pass.state;
  }

  /** The body of the snooze loop: redraw and count down on a new minute,
      with a full refresh when the minute string holds a "0", then read SW4
      ("Back"). */
  method PollSnooze(ghost ten: nat, five: nat, last: LastMin, s: Sample)
    returns (fiveMins: nat, lastMin: LastMin, effects: seq<Effect>, back: bool)
    requires five > 0
    ensures effects == SnoozePass(State(Snoozing, ten, five, last), s).effects
    ensures back ==> SnoozePass(State(Snoozing, ten, five, last), s).state
                       == RingGuard(State(Ringing, ten, fiveMins, IntZero))
    ensures !back ==> SnoozePass(State(Snoozing, ten, five, last), s).state
                        == if fiveMins != 0 then State(Snoozing, ten, fiveMins, lastMin)
                           else RingGuard(State(Ringing, ten, fiveMins, IntZero))
  {
    fiveMins, lastMin, effects := five, last, [];
    var thisMin := NatToString(s.minute);
    if MinuteChanged(thisMin, lastMin) {
      fiveMins := fiveMins - 1;
      effects := effects + [Draw(SnoozeScreen, RefreshFor(thisMin))];
      lastMin := MinText(thisMin);
    }
    back := false;
    if SW4 in s.pressed {
      effects := effects + [Draw(RingScreen, Full)];
      lastMin := MinText(thisMin);
      back := true;
    }
  }

  /** The number of passes whose minute string differs from the one before,
      starting from `last`: the transitions a countdown sees. */
  function Changes(last: LastMin, samples: seq<Sample>): nat
    decreases |samples|
  {
    if samples == [] then 0
    else if MinuteChanged(MinuteText(samples[0]), last) then 1 + Changes(MinText(MinuteText(samples[0])), samples[1..])
    else Changes(last, samples[1..])
  }

  predicate Quiet(samples: seq<Sample>)
  {
    forall i :: 0 <= i < |samples| ==> samples[i].pressed == {}
  }

  /** With no button pressed the ringing countdown drops exactly once per
      minute transition: after fewer than `ten` transitions it is still
      ringing with `ten` minus that many left, otherwise it has timed out —
      and a time-out neither stops the sound nor restores the volume. */
  lemma {:induction false} QuietRing(st: State, samples: seq<Sample>, volume: int)
    requires st.mode == Ringing && st.ten > 0 && Quiet(samples)
    ensures var o := Run(st, samples, volume);
            (Changes(st.last, samples) < st.ten ==>
               o.state.mode == Ringing && o.state.ten == st.ten - Changes(st.last, samples))
            && (Changes(st.last, samples) >= st.ten ==> o.state.mode == TimedOut)
            && Stop !in o.effects && QuitMixer !in o.effects
            && (forall v :: RestoreVolume(v) !in o.effects)
    decreases |samples|
  {
    if samples != [] {
      var first := RingPass(st, samples[0], volume);
      RingPassSpec(st, samples[0], volume);
      assert samples[0].pressed == {};
      assert Quiet(samples[1..]) by {
        forall i | 0 <= i < |samples[1..]| ensures samples[1..][i].pressed == {} {
          assert samples[1..][i] == samples[i + 1];
        }
      }
      if first.state.mode == Ringing {
        QuietRing(first.state, samples[1..], volume);
      }
    }
  }

  /** Left alone, an alarm times out after exactly eleven minute transitions:
      the first pass already counts because `%-M` never reads "00". */
  lemma ElevenTransitions(samples: seq<Sample>, volume: int)
    requires Quiet(samples)
    ensures Run(Start, samples, volume).state.mode == TimedOut <==> Changes(MinText("00"), samples) >= 11
    ensures Run(Start, samples, volume).state.mode == Ringing <==> Changes(MinText("00"), samples) < 11
  {
    QuietRing(Start, samples, volume);
  }

  /** Over any run, the user's volume is restored exactly when the session
      ended by SW4 ("Off"): a time-out leaves the alarm volume in place. */
  lemma {:induction false} RestoreOnlyOnOff(st: State, samples: seq<Sample>, volume: int)
    requires Valid(st) && Active(st)
    ensures var o := Run(st, samples, volume);
            (RestoreVolume(volume) in o.effects <==> o.state.mode == TurnedOff)
            && (forall v :: RestoreVolume(v) in o.effects ==> v == volume)
    decreases |samples|
  {
    if samples != [] {
      var first := Step(st, samples[0], volume);
      if st.mode == Ringing {
        RingPassSpec(st, samples[0], volume);
      } else {
        SnoozePassSpec(st, samples[0]);
      }
      if Active(first.state) {
        RestoreOnlyOnOff(first.state, samples[1..], volume);
      } else {
        assert Run(st, samples, volume).effects == first.effects + [];
      }
    }
  }

  /** While snoozed with no button pressed, `five_mins` drops once per
      minute transition and `ten_mins` is untouched, until the fifth. */
  lemma {:induction false} QuietSnooze(st: State, samples: seq<Sample>, volume: int)
    requires st.mode == Snoozing && st.five > 0 && Quiet(samples)
    requires Changes(st.last, samples) < st.five
    ensures var o := Run(st, samples, volume);
            o.state.mode == Snoozing && o.state.ten == st.ten
            && o.state.five == st.five - Changes(st.last, samples)
    decreases |samples|
  {
    if samples != [] {
      var first := SnoozePass(st, samples[0]);
      SnoozePassSpec(st, samples[0]);
      assert samples[0].pressed == {};
      assert Quiet(samples[1..]) by {
        forall i | 0 <= i < |samples[1..]| ensures samples[1..][i].pressed == {} {
          assert samples[1..][i] == samples[i + 1];
        }
      }
      QuietSnooze(first.state, samples[1..], volume);
    }
  }

  /** Snooze's integer 0 in `lastMin` makes the next ringing pass count
      unconditionally, whatever the minute. */
  lemma ForcedDecrement(ten: nat, five: nat, s: Sample, volume: int)
    requires ten > 0
    ensures RingPass(State(Ringing, ten, five, IntZero), s, volume).state.ten == ten - 1
  {
  }
}
