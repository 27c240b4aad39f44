/** The button menus of the clock: the main loop's four buttons open four
    submenus, each a polling loop nested inside the code of its parent. Every
    loop tests its buttons in the order SW4, SW3, SW2, SW1, sleeps, and adds
    one to a single `count` shared by all of them; each loop runs while
    `count < 30` (`count < 60` in Volume), and entering a submenu first sets
    `count = 0`.

    The nesting is modelled as a stack of frames, one per running loop, each
    remembering which of its tests comes next. A step is one stretch of a
    loop pass: from the frame's next test up to the end of the pass, or up to
    the point where control leaves the loop's own code (a submenu starts, a
    lengthy action runs, the loop breaks); the parent then carries on with its
    next test in a later step, at a later reading of the buttons. */
module Navigation {

  import opened Buttons

  /** The main loop (`Home`) and the submenu loops, named after their labels. */
  datatype Node = Home | Menu | Alarm | Power | Info | More | Temp | Stuff | Life
                | Volume | Lights | LightsMore | PinEleven

  /** What a menu asks the rest of the clock to do. */
  datatype Command =
    | ToggleAlarm | ReloadAlarm | Shutdown | Reboot
    | ShowCpu | ShowRam | ShowUptime | ShowSensorTemp | ShowCpuTemp
    | GameOfLife(start: string) | TestAlarm(loaded: bool) | VolumeUp | VolumeDown | PlayMusic
    | TogglePin11 | PinTimer(hours: nat) | TogglePin12 | AllOff | TogglePin10 | TogglePin9

  /** What a test does when its button reads low:
      `Back` and `Exit` break out of the loop (`Exit` after a command);
      `Enter` starts a submenu loop; `Blocking` runs a lengthy action and the
      pass goes on afterwards; `Adjust` runs a quick action, resets `count`
      and the pass goes on at once; `Halt` raises `SystemExit`; `Test` starts
      the test alarm, which breaks out of the loop when the sound fails to
      load. */
  datatype Action = Back | Enter(child: Node) | Exit(cmd: Command) | Blocking(cmd: Command)
                  | Adjust(cmd: Command) | Halt(cmd: Command) | Test

  /** The order every loop reads its buttons in: its test `k` reads
      `Order[k]`. */
  const Order: seq<Button> := [SW4, SW3, SW2, SW1]

  /** How many buttons a loop tests. */
  function Width(n: Node): (w: nat)
    ensures 3 <= w <= |Order|
  {
    match n
    case Menu | Alarm | Power | Info | Temp => 3
    case _ => 4
  }

  /** What each loop does when its `k`-th button reads low, in program order. */
  function ActionAt(n: Node, k: nat): Action
    requires k < Width(n)
  {
    match n
    case Home => [Enter(Menu), Enter(Info), Enter(Stuff), Enter(Lights)][k]
    case Menu => [Back, Enter(Alarm), Enter(Power)][k]
    case Alarm => [Back, Exit(ToggleAlarm), Exit(ReloadAlarm)][k]
    case Power => [Back, Halt(Shutdown), Halt(Reboot)][k]
    case Info => [Back, Enter(More), Enter(Temp)][k]
    case More => [Back, Exit(ShowCpu), Exit(ShowRam), Exit(ShowUptime)][k]
    case Temp => [Back, Exit(ShowSensorTemp), Exit(ShowCpuTemp)][k]
    case Stuff => [Back, Enter(Life), Enter(Volume), Blocking(PlayMusic)][k]
    case Life => [Back, Blocking(GameOfLife("random")), Blocking(GameOfLife("Gosper")),
                  Blocking(GameOfLife("R-pentomino"))][k]
    case Volume => [Back, Test, Adjust(VolumeUp), Adjust(VolumeDown)][k]
    case Lights => [Back, Enter(LightsMore), Exit(TogglePin10), Exit(TogglePin9)][k]
    case LightsMore => [Back, Enter(PinEleven), Exit(TogglePin12), Exit(AllOff)][k]
    case PinEleven => [Back, Exit(TogglePin11), Exit(PinTimer(1)), Exit(PinTimer(2))][k]
  }

  /** The bound on `count` in a submenu's `while`. */
  function Limit(n: Node): nat
  {
    if n == Volume then 60 else 30
  }

  /** A running loop and the index of its next test. */
  datatype Frame = Frame(node: Node, pc: nat)

  /** The loops now running, outermost (the main loop) first, and `count`;
      or the program stopped by Shutdown or Reboot. */
  datatype MenuState = Nav(stack: seq<Frame>, count: nat) | Halted(cmd: Command)

  /** A running frame: its next test is one of the loop's tests or the
      end of the pass. */
  predicate InRange(f: Frame) { f.pc <= Width(f.node) }

  /** A submenu frame: a running frame of a loop other than the main one. */
  predicate SubFrame(f: Frame) { f.node != Home && InRange(f) }

  /** The main loop at the bottom, submenus above it. */
  predicate ValidStack(stack: seq<Frame>)
  {
    |stack| >= 1 && stack[0].node == Home && InRange(stack[0])
    && forall k :: 1 <= k < |stack| ==> SubFrame(stack[k])
  }

  predicate Valid(st: MenuState)
  {
    st.Nav? ==> ValidStack(st.stack)
  }

  /** The main loop before any button: no submenu running. */
  const AtHome := [Frame(Home, 0)]

  datatype Outcome = Outcome(state: MenuState, cmds: seq<Command>)

  function Top(stack: seq<Frame>): Frame
    requires |stack| >= 1
  {
    stack[|stack| - 1]
  }

  function Below(stack: seq<Frame>): seq<Frame>
    requires |stack| >= 1
  {
    stack[..|stack| - 1]
  }

  /** How a pass ends once its tests are done: the main loop goes round;
      a submenu sleeps, adds one to `count` and leaves its loop when the
      bound is reached. */
  function EndPass(stack: seq<Frame>, count: nat): (o: Outcome)
    requires ValidStack(stack)
    ensures Valid(o.state) && o.state.Nav? && o.cmds == []
  {
    var top := Top(stack);
    if top.node == Home then Outcome(Nav(AtHome, count), [])
    else if count + 1 < Limit(top.node) then Outcome(Nav(Below(stack) + [Frame(top.node, 0)], count + 1), [])
    else Outcome(Nav(Below(stack), count + 1), [])
  }

  /** The main loop's tests only open submenus. */
  lemma HomeEnters(k: nat)
    requires k < Width(Home)
    ensures ActionAt(Home, k).Enter? && ActionAt(Home, k).child != Home
  {
  }

  lemma ChildNotHome(n: Node, k: nat)
    requires k < Width(n) && ActionAt(n, k).Enter?
    ensures ActionAt(n, k).child != Home
  {
  }

  /** The effect of a test whose button reads low and whose action ends
      the stretch of the pass (every action but `Adjust`). */
  function Act(stack: seq<Frame>, count: nat, audioLoads: bool): (o: Outcome)
    requires ValidStack(stack) && Top(stack).pc < Width(Top(stack).node)
    requires !ActionAt(Top(stack).node, Top(stack).pc).Adjust?
    ensures Valid(o.state)
  {
    var top := Top(stack);
    var action := ActionAt(top.node, top.pc);
    var next := Below(stack) + [Frame(top.node, top.pc + 1)];
    assert top.node == Home ==> |stack| == 1 && action.Enter? by {
      if top.node == Home { HomeEnters(top.pc); }
    }
    match action
    case Back => Outcome(Nav(Below(stack), count), [])
    case Enter(c) =>
      ChildNotHome(top.node, top.pc);
      Outcome(Nav(next + [Frame(c, 0)], 0), [])
    case Exit(cmd) => Outcome(Nav(Below(stack), count), [cmd])
    case Blocking(cmd) => Outcome(Nav(next, count), [cmd])
    case Halt(cmd) => Outcome(Halted(cmd), [cmd])
    case Test =>
      if audioLoads then Outcome(Nav(next, count), [TestAlarm(true)])
      else Outcome(Nav(Below(stack), count), [TestAlarm(false)])
  }

  /** The rest of a pass of the innermost loop, from its next test on. */
  function Scan(stack: seq<Frame>, count: nat, s: set<Button>, audioLoads: bool): (o: Outcome)
    requires ValidStack(stack)
    ensures Valid(o.state)
    decreases Width(Top(stack).node) - Top(stack).pc
  {
    var top := Top(stack);
    if top.pc == Width(top.node) then EndPass(stack, count)
    else
      var action := ActionAt(top.node, top.pc);
      var next := Below(stack) + [Frame(top.node, top.pc + 1)];
      if Order[top.pc] !in s then Scan(next, count, s, audioLoads)
      else if action.Adjust? then
        var rest := Scan(next, 0, s, audioLoads);
        Outcome(rest.state, [action.cmd] + rest.cmds)
      else Act(stack, count, audioLoads)
  }

  /** One reading of the buttons (and, for the test alarm, whether the
      sound file loads). */
  datatype Sample = Sample(pressed: set<Button>, audioLoads: bool)

  function Step(st: MenuState, s: Sample): (o: Outcome)
    requires Valid(st)
    ensures Valid(o.state)
  {
    match st
    case Halted(_) => Outcome(st, [])
    case Nav(stack, count) => Scan(stack, count, s.pressed, s.audioLoads)
  }

  function Run(st: MenuState, samples: seq<Sample>): (o: Outcome)
    requires Valid(st)
    ensures Valid(o.state)
    decreases |samples|
  {
    if samples == [] then Outcome(st, [])
    else
      var first := Step(st, samples[0]);
      var rest := Run(first.state, samples[1..]);
      Outcome(rest.state, first.cmds + rest.cmds)
  }

  /** The main loop before any button is pressed. */
  const Start := Nav(AtHome, 0)

  /** Part way through a pass of the innermost loop `node` (below it the
      frames `below`), at test `pc`: the commands so far followed by the rest
      of the pass are the whole stretch `Scan` from where it began. */
  ghost predicate Pending(start: Outcome, below: seq<Frame>, node: Node, pc: nat, count: nat,
                          s: set<Button>, audioLoads: bool, cmds: seq<Command>)
  {
    ValidStack(below + [Frame(node, pc)])
    && var rest := Scan(below + [Frame(node, pc)], count, s, audioLoads);
       start == Outcome(rest.state, cmds + rest.cmds)
  }

  lemma PendingStart(below: seq<Frame>, node: Node, pc: nat, count: nat, s: set<Button>, audioLoads: bool)
    requires ValidStack(below + [Frame(node, pc)])
    ensures Pending(Scan(below + [Frame(node, pc)], count, s, audioLoads), below, node, pc, count, s, audioLoads, [])
  {
    var rest := Scan(below + [Frame(node, pc)], count, s, audioLoads);
    assert [] + rest.cmds == rest.cmds;
  }

  /** A stack with one more frame on top is valid exactly when the frame is
      the main loop on an empty stack, or a submenu frame on a valid one. */
  lemma ValidPush(below: seq<Frame>, f: Frame)
    ensures ValidStack(below + [f]) <==>
              (below == [] && f.node == Home && InRange(f)) || (ValidStack(below) && SubFrame(f))
  {
    var stack := below + [f];
    assert stack[|below|] == f;
    assert forall k :: 0 <= k < |below| ==> stack[k] == below[k];
    if ValidStack(stack) && below != [] {
      assert SubFrame(stack[|below|]);
    }
  }

  lemma ValidNext(below: seq<Frame>, node: Node, pc: nat, pc': nat)
    requires ValidStack(below + [Frame(node, pc)]) && pc' <= Width(node)
    ensures ValidStack(below + [Frame(node, pc')])
  {
    ValidPush(below, Frame(node, pc));
    ValidPush(below, Frame(node, pc'));
  }

  /** A test whose button reads high passes on to the next. */
  lemma PendingSkip(start: Outcome, below: seq<Frame>, node: Node, pc: nat, count: nat,
                    s: set<Button>, audioLoads: bool, cmds: seq<Command>)
    requires Pending(start, below, node, pc, count, s, audioLoads, cmds)
    requires pc < Width(node) && Order[pc] !in s
    ensures Pending(start, below, node, pc + 1, count, s, audioLoads, cmds)
  {
    var here := below + [Frame(node, pc)];
    assert Top(here) == Frame(node, pc) && Below(here) == below;
    ValidNext(below, node, pc, pc + 1);
  }

  /** An `Adjust` test that reads low runs its command, resets `count` and
      passes on. */
  lemma PendingContinue(start: Outcome, below: seq<Frame>, node: Node, pc: nat, count: nat,
                        s: set<Button>, audioLoads: bool, cmds: seq<Command>, cmd: Command)
    requires Pending(start, below, node, pc, count, s, audioLoads, cmds)
    requires pc < Width(node) && Order[pc] in s
    requires ActionAt(node, pc) == Adjust(cmd)
    ensures Pending(start, below, node, pc + 1, 0, s, audioLoads, cmds + [cmd])
  {
    ScanAdjust(below, node, pc, count, s, audioLoads, cmd);
    var rest := Scan(below + [Frame(node, pc + 1)], 0, s, audioLoads);
    assert cmds + ([cmd] + rest.cmds) == cmds + [cmd] + rest.cmds;
  }

  /** The step of `Scan` at an `Adjust` test that reads low. */
  lemma ScanAdjust(below: seq<Frame>, node: Node, pc: nat, count: nat,
                   s: set<Button>, audioLoads: bool, cmd: Command)
    requires ValidStack(below + [Frame(node, pc)])
    requires pc < Width(node) && Order[pc] in s
    requires ActionAt(node, pc) == Adjust(cmd)
    ensures ValidStack(below + [Frame(node, pc + 1)])
    ensures var rest := Scan(below + [Frame(node, pc + 1)], 0, s, audioLoads);
            Scan(below + [Frame(node, pc)], count, s, audioLoads) == Outcome(rest.state, [cmd] + rest.cmds)
  {
    var here := below + [Frame(node, pc)];
    assert Top(here) == Frame(node, pc) && Below(here) == below;
    ValidNext(below, node, pc, pc + 1);
  }

  /** Any other test that reads low ends the stretch. */
  lemma PendingDone(start: Outcome, below: seq<Frame>, node: Node, pc: nat, count: nat,
                    s: set<Button>, audioLoads: bool, cmds: seq<Command>, o: Outcome)
    requires Pending(start, below, node, pc, count, s, audioLoads, cmds)
    requires pc < Width(node) && Order[pc] in s
    requires !ActionAt(node, pc).Adjust?
    requires ValidStack(below + [Frame(node, pc)]) && Top(below + [Frame(node, pc)]) == Frame(node, pc)
    requires Act(below + [Frame(node, pc)], count, audioLoads) == o
    ensures start == Outcome(o.state, cmds + o.cmds)
  {
    var here := below + [Frame(node, pc)];
    assert Top(here) == Frame(node, pc) && Below(here) == below;
  }

  /** With every test done the pass ends as `EndPass` says. */
  lemma PendingEnd(start: Outcome, below: seq<Frame>, node: Node, count: nat,
                   s: set<Button>, audioLoads: bool, cmds: seq<Command>)
    requires Pending(start, below, node, Width(node), count, s, audioLoads, cmds)
    ensures node == Home ==> start == Outcome(Nav(AtHome, count), cmds)
    ensures node != Home && count + 1 < Limit(node) ==>
              start == Outcome(Nav(below + [Frame(node, 0)], count + 1), cmds)
    ensures node != Home && count + 1 >= Limit(node) ==> start == Outcome(Nav(below, count + 1), cmds)
  {
    var here := below + [Frame(node, Width(node))];
    assert Top(here) == Frame(node, Width(node)) && Below(here) == below;
    assert cmds + [] == cmds;
  }

  /** One stretch of a pass of the innermost running loop, as the loop code
      does it: test the buttons in order, act on the first that reads low
      unless the action lets the pass go on, and finish the pass with the
      sleep and `count = count + 1`. */
  method Poll(stack0: seq<Frame>, count0: nat, s: Sample) returns (st: MenuState, cmds: seq<Command>)
    requires ValidStack(stack0)
    ensures Outcome(st, cmds) == Scan(stack0, count0, s.pressed, s.audioLoads)
  {
    var node := Top(stack0).node;
    var below := Below(stack0);
    var pc := Top(stack0).pc;
    var count: nat := count0;
    var width := Width(node);
    cmds := [];
    assert below + [Frame(node, pc)] == stack0;
    ghost var start := Scan(stack0, count0, s.pressed, s.audioLoads);
    PendingStart(below, node, pc, count, s.pressed, s.audioLoads);
    while pc < width
      invariant pc <= width
      invariant Pending(start, below, node, pc, count, s.pressed, s.audioLoads, cmds)
      decreases width - pc
    {
      if Order[pc] in s.pressed {
        var action := ActionAt(node, pc);
        if action.Adjust? {
          PendingContinue(start, below, node, pc, count, s.pressed, s.audioLoads, cmds, action.cmd);
          count := 0;
          cmds := cmds + [action.cmd];
        } else {
          var here := below + [Frame(node, pc)];
          assert Top(here) == Frame(node, pc);
          var o := Act(here, count, s.audioLoads);
          PendingDone(start, below, node, pc, count, s.pressed, s.audioLoads, cmds, o);
          st := o.state;
          cmds := cmds + o.cmds;
          return;
        }
      } else {
        PendingSkip(start, below, node, pc, count, s.pressed, s.audioLoads, cmds);
      }
      pc := pc + 1;
    }
    PendingEnd(start, below, node, count, s.pressed, s.audioLoads, cmds);
    if node == Home {
      st := Nav(AtHome, count);
    } else if count + 1 < Limit(node) {
      st := Nav(below + [Frame(node, 0)], count + 1);
    } else {
      st := Nav(below, count + 1);
    }
  }

  /** The effects so far, followed by the run from `st` on the remaining
      readings, make up the whole run from `Start`. */
  ghost predicate Reaches(samples: seq<Sample>, st: MenuState, i: nat, cmds: seq<Command>)
    requires Valid(st) && i <= |samples|
  {
    var rest := Run(st, samples[i..]);
    Run(Start, samples) == Outcome(rest.state, cmds + rest.cmds)
  }

  lemma Advance(samples: seq<Sample>, st: MenuState, i: nat, cmds: seq<Command>, o: Outcome)
    requires Valid(st) && i < |samples| && Reaches(samples, st, i, cmds)
    requires o == Step(st, samples[i])
    ensures Reaches(samples, o.state, i + 1, cmds + o.cmds)
  {
    assert samples[i..][0] == samples[i] && samples[i..][1..] == samples[i + 1..];
    var rest := Run(o.state, samples[i + 1..]);
    assert cmds + (o.cmds + rest.cmds) == cmds + o.cmds + rest.cmds;
  }

  /** The menus driven by a sequence of button readings; the result is
      what the specification `Run` gives from `Start`. */
  method Navigate(samples: seq<Sample>) returns (st: MenuState, cmds: seq<Command>)
    ensures Outcome(st, cmds) == Run(Start, samples)
  {
    st := Start;
    cmds := [];
    var i := 0;
    assert Reaches(samples, st, 0, cmds) by {
      assert samples[0..] == samples;
    }
    while i < |samples| && st.Nav?
      invariant i <= |samples| && Valid(st)
      invariant Reaches(samples, st, i, cmds)
      decreases |samples| - i
    {
      var next, stepCmds := Poll(st.stack, st.count, samples[i]);
      Advance(samples, st, i, cmds, Outcome(next, stepCmds));
      st, cmds := next, cmds + stepCmds;
      i := i + 1;
    }
    HaltedStays(st, samples[i..]);
    assert cmds + [] == cmds;
  }

  /** Shutdown and Reboot end the program: nothing happens afterwards. */
  lemma {:induction false} HaltedStays(st: MenuState, samples: seq<Sample>)
    requires Valid(st) && (st.Halted? || samples == [])
    ensures Run(st, samples) == Outcome(st, [])
    decreases |samples|
  {
    if samples != [] {
      HaltedStays(st, samples[1..]);
    }
  }

  /** Every submenu reads SW4 first, and SW4 means Back. */
  lemma BackFirst(n: Node)
    requires n != Home
    ensures Order[0] == SW4 && ActionAt(n, 0) == Back
  {
  }

  /** Back has priority: a submenu starting a pass with SW4 low leaves its
      loop at once, whatever else reads low, and the parent loop is the
      innermost again with `count` unchanged. */
  lemma BackHasPriority(stack: seq<Frame>, count: nat, s: set<Button>, audioLoads: bool)
    requires ValidStack(stack) && Top(stack).node != Home && Top(stack).pc == 0 && SW4 in s
    ensures Scan(stack, count, s, audioLoads) == Outcome(Nav(Below(stack), count), [])
    ensures ValidStack(Below(stack))
  {
    BackFirst(Top(stack).node);
  }

  /** Opening a submenu resets the shared `count` to 0 and starts the new
      loop at its first test; the parent will go on with its next test. */
  lemma EnterResetsCount(stack: seq<Frame>, count: nat, audioLoads: bool)
    requires ValidStack(stack) && Top(stack).pc < Width(Top(stack).node)
    requires ActionAt(Top(stack).node, Top(stack).pc).Enter?
    ensures var o := Act(stack, count, audioLoads);
            o.state.Nav? && o.state.count == 0 && o.cmds == []
            && o.state.stack == Below(stack) + [Frame(Top(stack).node, Top(stack).pc + 1),
                                                Frame(ActionAt(Top(stack).node, Top(stack).pc).child, 0)]
  {
    var top := Top(stack);
    var next := Below(stack) + [Frame(top.node, top.pc + 1)];
    var c := ActionAt(top.node, top.pc).child;
    assert next + [Frame(c, 0)] == Below(stack) + [Frame(top.node, top.pc + 1), Frame(c, 0)];
  }

  /** With no button low, a pass runs through all its tests to the end. */
  lemma {:induction false} ScanIdle(stack: seq<Frame>, count: nat, audioLoads: bool)
    requires ValidStack(stack)
    ensures Scan(stack, count, {}, audioLoads) == EndPass(stack, count)
    decreases Width(Top(stack).node) - Top(stack).pc
  {
    var top := Top(stack);
    if top.pc < Width(top.node) {
      var next := Below(stack) + [Frame(top.node, top.pc + 1)];
      assert Top(next) == Frame(top.node, top.pc + 1) && Below(next) == Below(stack);
      assert ValidStack(next) by {
        assert forall k :: 0 <= k < |stack| - 1 ==> next[k] == stack[k];
      }
      ScanIdle(next, count, audioLoads);
    }
  }

  predicate Quiet(samples: seq<Sample>)
  {
    forall i :: 0 <= i < |samples| ==> samples[i].pressed == {}
  }

  lemma QuietTail(samples: seq<Sample>)
    requires Quiet(samples) && samples != []
    ensures samples[0].pressed == {} && Quiet(samples[1..])
  {
    assert forall i :: 0 <= i < |samples[1..]| ==> samples[1..][i] == samples[i + 1];
  }

  /** Left alone, a submenu loop at the start of a pass with `count < Limit`
      runs exactly `Limit - count` more passes: before that it is still the
      innermost loop with `count` grown by one per pass, and then it has
      ended with `count == Limit`. */
  lemma {:induction false} IdleTimeout(below: seq<Frame>, node: Node, count: nat, samples: seq<Sample>)
    requires ValidStack(below + [Frame(node, 0)]) && node != Home && count < Limit(node)
    requires Quiet(samples) && |samples| <= Limit(node) - count
    ensures |samples| < Limit(node) - count ==>
              Run(Nav(below + [Frame(node, 0)], count), samples)
                == Outcome(Nav(below + [Frame(node, 0)], count + |samples|), [])
    ensures |samples| == Limit(node) - count ==>
              Run(Nav(below + [Frame(node, 0)], count), samples) == Outcome(Nav(below, Limit(node)), [])
    decreases |samples|
  {
    var stack := below + [Frame(node, 0)];
    if samples != [] {
      QuietTail(samples);
      IdlePass(below, node, count, samples[0]);
      if count + 1 < Limit(node) {
        IdleTimeout(below, node, count + 1, samples[1..]);
      } else {
        HaltedOrEmpty(Nav(below, count + 1), samples[1..]);
      }
    }
  }

  /** One pass with no button low: `count` grows by one, and the loop ends
      once it reaches the limit. */
  lemma IdlePass(below: seq<Frame>, node: Node, count: nat, sample: Sample)
    requires ValidStack(below + [Frame(node, 0)]) && node != Home && sample.pressed == {}
    ensures ValidStack(below)
    ensures count + 1 < Limit(node) ==>
              Step(Nav(below + [Frame(node, 0)], count), sample) == Outcome(Nav(below + [Frame(node, 0)], count + 1), [])
    ensures count + 1 >= Limit(node) ==>
              Step(Nav(below + [Frame(node, 0)], count), sample) == Outcome(Nav(below, count + 1), [])
  {
    var stack := below + [Frame(node, 0)];
    ScanIdle(stack, count, sample.audioLoads);
    assert Top(stack) == Frame(node, 0) && Below(stack) == below;
    assert ValidStack(below) by {
      assert forall k :: 0 <= k < |below| ==> below[k] == stack[k];
    }
  }

  lemma HaltedOrEmpty(st: MenuState, samples: seq<Sample>)
    requires Valid(st) && samples == []
    ensures Run(st, samples) == Outcome(st, [])
  {
  }

  /** A submenu that times out leaves `count` at its bound or above. Control
      comes back to the parent loop (bound 30) inside the pass that opened
      the child; with no button low, the parent finishes that pass's
      remaining tests and leaves when it ends, without a fresh pass of its
      own: the time-out cascades one level per sample. */
  lemma ChildTimeoutCascades(below: seq<Frame>, parent: Frame, child: Node, count: nat, a1: bool, a2: bool)
    requires ValidStack(below + [parent, Frame(child, 0)])
    requires parent.node != Home && parent.node != Volume && count + 1 >= Limit(child)
    ensures Run(Nav(below + [parent, Frame(child, 0)], count), [Sample({}, a1), Sample({}, a2)])
              == Outcome(Nav(below, count + 2), [])
  {
    var stack := below + [parent, Frame(child, 0)];
    var up := below + [parent];
    assert Top(stack) == Frame(child, 0) && Below(stack) == up;
    assert Top(up) == parent && Below(up) == below;
    assert ValidStack(up) by {
      assert forall k :: 0 <= k < |up| ==> up[k] == stack[k];
    }
    assert ValidStack(below) by {
      assert forall k :: 0 <= k < |below| ==> below[k] == stack[k];
    }
    ScanIdle(stack, count, a1);
    ScanIdle(up, count + 1, a2);
    var samples := [Sample({}, a1), Sample({}, a2)];
    assert samples[1..] == [Sample({}, a2)] && samples[1..][1..] == [];
    var o1 := Step(Nav(stack, count), samples[0]);
    assert o1 == Outcome(Nav(up, count + 1), []);
    var o2 := Step(o1.state, samples[1]);
    assert o2 == Outcome(Nav(below, count + 2), []);
    assert Run(o1.state, samples[1..]) == Outcome(o2.state, o2.cmds + []);
  }


  /** A measure of how far a state is from the main loop at rest: the
      menus nest, and each idle pass either counts up towards the bound or
      leaves a loop. */
  function Rank(st: MenuState): nat
    requires Valid(st)
  {
    match st
    case Halted(_) => 0
    case Nav(stack, count) =>
      var top := Top(stack);
      if top.node == Home then (if top.pc == 0 then 0 else 1)
      else (|stack| - 1) * 100 + (if count < Limit(top.node) then Limit(top.node) - count else 0) + 1
  }

  /** An idle pass brings the menus strictly closer to the main loop at
      rest; at rest they stay there. */
  lemma IdleStepRank(st: MenuState, s: Sample)
    requires Valid(st) && st.Nav? && s.pressed == {}
    ensures Step(st, s).cmds == [] && Step(st, s).state.Nav?
    ensures Rank(st) == 0 ==> Step(st, s).state == st
    ensures Rank(st) > 0 ==> Rank(Step(st, s).state) < Rank(st)
  {
    var stack := st.stack;
    ScanIdle(stack, st.count, s.audioLoads);
    var top := Top(stack);
    if top.node == Home {
      assert |stack| == 1;
      assert stack == [top];
    } else {
      assert |stack| >= 2;
      var below := Below(stack);
      if st.count + 1 >= Limit(top.node) && Top(below).node != Home {
        assert |below| >= 2;
      }
    }
  }

  /** Left alone long enough, the menus always return to the main loop at
      rest without issuing a command. */
  lemma {:induction false} IdleReturnsHome(st: MenuState, samples: seq<Sample>)
    requires Valid(st) && st.Nav? && Quiet(samples) && |samples| >= Rank(st)
    ensures Run(st, samples).state.Nav? && Run(st, samples).state.stack == AtHome
    ensures Run(st, samples).cmds == []
    decreases |samples|
  {
    if samples == [] {
      assert st.stack == [Top(st.stack)];
    } else {
      QuietTail(samples);
      IdleStepRank(st, samples[0]);
      IdleReturnsHome(Step(st, samples[0]).state, samples[1..]);
    }
  }

  /** The frame of the same loop at its next test. */
  lemma NextTest(below: seq<Frame>, n: Node, pc: nat)
    requires ValidStack(below + [Frame(n, pc)]) && pc < Width(n)
    ensures var next := below + [Frame(n, pc + 1)];
            ValidStack(next) && Top(next) == Frame(n, pc + 1) && Below(next) == below
  {
    ValidNext(below, n, pc, pc + 1);
  }

  /** Volume's last test: Down, read after Up in the same pass. */
  lemma VolumeDownTail(below: seq<Frame>, s: set<Button>, audioLoads: bool)
    requires ValidStack(below + [Frame(Volume, 3)])
    ensures Scan(below + [Frame(Volume, 3)], 0, s, audioLoads)
              == Outcome(Nav(below + [Frame(Volume, 0)], 1), if SW1 in s then [VolumeDown] else [])
  {
    var f3 := below + [Frame(Volume, 3)];
    assert Top(f3) == Frame(Volume, 3) && Below(f3) == below;
    NextTest(below, Volume, 3);
  }

  /** In Volume, Up resets `count` before the pass adds one, whatever the
      count was, and Down is still read in the same pass. */
  lemma VolumeUpResetsCount(below: seq<Frame>, count: nat, s: set<Button>, audioLoads: bool)
    requires ValidStack(below + [Frame(Volume, 0)])
    requires SW4 !in s && SW3 !in s && SW2 in s
    ensures Scan(below + [Frame(Volume, 0)], count, s, audioLoads)
              == Outcome(Nav(below + [Frame(Volume, 0)], 1),
                         [VolumeUp] + if SW1 in s then [VolumeDown] else [])
  {
    var stack := below + [Frame(Volume, 0)];
    assert Top(stack) == Frame(Volume, 0) && Below(stack) == below;
    NextTest(below, Volume, 0);
    NextTest(below, Volume, 1);
    NextTest(below, Volume, 2);
    VolumeDownTail(below, s, audioLoads);
    var f2 := below + [Frame(Volume, 2)];
    assert Scan(f2, count, s, audioLoads).cmds
             == [VolumeUp] + Scan(below + [Frame(Volume, 3)], 0, s, audioLoads).cmds;
  }



  /** Back from Volume after more than 28 passes there also ends Stuff on
      its next pass, because the two loops share `count`: one press of Back
      returns to the main loop, which goes on with its last test. */
  lemma BackFromLongVolume(count: nat, s: Sample, audioLoads: bool)
    requires 29 <= count < 60 && SW4 in s.pressed
    ensures var st := Nav([Frame(Home, 3), Frame(Stuff, 3), Frame(Volume, 0)], count);
            Run(st, [s, Sample({}, audioLoads)]) == Outcome(Nav([Frame(Home, 3)], count + 1), [])
  {
    var st := Nav([Frame(Home, 3), Frame(Stuff, 3), Frame(Volume, 0)], count);
    BackHasPriority(st.stack, count, s.pressed, s.audioLoads);
    assert Below(st.stack) == [Frame(Home, 3), Frame(Stuff, 3)];
    ScanIdle([Frame(Home, 3), Frame(Stuff, 3)], count, audioLoads);
    assert Below([Frame(Home, 3), Frame(Stuff, 3)]) == [Frame(Home, 3)];
    var samples := [s, Sample({}, audioLoads)];
    assert samples[1..] == [Sample({}, audioLoads)] && samples[1..][1..] == [];
    var o1 := Step(st, samples[0]);
    assert o1 == Outcome(Nav([Frame(Home, 3), Frame(Stuff, 3)], count), []);
    var o2 := Step(o1.state, samples[1]);
    assert o2 == Outcome(Nav([Frame(Home, 3)], count + 1), []);
    assert Run(o1.state, samples[1..]) == Outcome(o2.state, o2.cmds + []);
  }
}
