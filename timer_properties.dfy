/** What the timer store promises: each branch of `tick`, the invariant
    `1 <= secondsLeft <= Duration(phase)` and `cycle` in [0,3] on every
    reachable state, the pomodoro credit landing on exactly one task, and the
    cadence of a whole round of four work phases. */
module TimerProperties {
  import opened Tasks
  import opened Timer
  import TaskProperties

  /** Negating the dividend negates JavaScript's remainder; with the
      non-negative case of `JsRem`'s contract this fixes its value everywhere. */
  lemma JsRemOdd(a: int, b: int)
    requires b > 0
    ensures JsRem(-a, b) == -JsRem(a, b)
  {
  }

  /** A stopped timer, or one already at zero, ignores the pulse. */
  lemma TickIdle(t: TimerState, tasks: seq<Task>)
    requires !t.isRunning || t.secondsLeft == 0
    ensures AfterTick(t) == t
    ensures TickTasks(t, tasks) == tasks && TickEvents(t, tasks) == []
  {
  }

  /** Above one second, a tick only counts down. */
  lemma TickCountsDown(t: TimerState, tasks: seq<Task>)
    requires t.isRunning && t.secondsLeft > 1
    ensures AfterTick(t) == t.(secondsLeft := t.secondsLeft - 1)
    ensures TickTasks(t, tasks) == tasks && TickEvents(t, tasks) == []
  {
  }

  /** The last second of a work phase leads to a short break while
      `cycle < 3` and to a long break at `cycle == 3`; `cycle` is kept. */
  lemma WorkEndsInBreak(t: TimerState)
    requires t.isRunning && t.secondsLeft == 1 && t.phase == Work
    ensures t.cycle < 3 ==> AfterTick(t) == TimerState(ShortBreak, SHORT, true, t.cycle)
    ensures t.cycle >= 3 ==> AfterTick(t) == TimerState(LongBreak, LONG, true, t.cycle)
  {
  }

  /** The last second of either break leads back to work and moves the
      cycle counter on, modulo 4. */
  lemma BreakEndsInWork(t: TimerState)
    requires t.isRunning && t.secondsLeft == 1 && t.phase != Work && t.cycle >= 0
    ensures AfterTick(t) == TimerState(Work, WORK, true, (t.cycle + 1) % 4)
  {
  }

  /** A phase change keeps the timer running, stores the new phase's full
      length, and ends with a request for the new phase's ambience. */
  lemma TransitionKeepsRunning(t: TimerState, tasks: seq<Task>)
    requires Expires(t)
    ensures AfterTick(t).phase != t.phase
    ensures AfterTick(t).isRunning == t.isRunning
    ensures AfterTick(t).secondsLeft == Duration(AfterTick(t).phase)
    ensures |TickEvents(t, tasks)| >= 1
    ensures TickEvents(t, tasks)[|TickEvents(t, tasks)| - 1] == Ambience(AfterTick(t).phase)
  {
  }

  /** `cycle` changes only on entry to work. */
  lemma CycleMovesOnlyIntoWork(t: TimerState)
    ensures AfterTick(t).cycle != t.cycle ==> t.phase != Work && AfterTick(t).phase == Work
  {
  }

  /** The credit is asked for exactly when a work phase ends and some task is
      unfinished; it is `incPomo` of the first unfinished task's id, and with
      unique ids it raises that task's count by one and leaves every other
      record as it was. */
  lemma TickCreditsFirstUndone(t: TimerState, tasks: seq<Task>)
    ensures (exists e :: e in TickEvents(t, tasks) && e.IncPomo?)
      <==> Expires(t) && t.phase == Work && FirstUndone(tasks).Some?
    ensures Expires(t) && t.phase == Work && FirstUndone(tasks).Some? ==>
      var i := FirstUndone(tasks).value;
      TickTasks(t, tasks) == IncPomoIn(tasks, tasks[i].id) &&
      TickEvents(t, tasks) == [IncPomo(tasks[i].id), Ambience(AfterTick(t).phase)]
    ensures UniqueIds(tasks) && Expires(t) && t.phase == Work && FirstUndone(tasks).Some? ==>
      var i := FirstUndone(tasks).value;
      TickTasks(t, tasks) == tasks[i := tasks[i].(pomos := tasks[i].pomos + 1)] &&
      TickEvents(t, tasks) == [IncPomo(tasks[i].id), Ambience(AfterTick(t).phase)]
    ensures !(Expires(t) && t.phase == Work && FirstUndone(tasks).Some?) ==>
      TickTasks(t, tasks) == tasks
    ensures Expires(t) && !(t.phase == Work && FirstUndone(tasks).Some?) ==>
      TickEvents(t, tasks) == [Ambience(AfterTick(t).phase)]
  {
    var events := TickEvents(t, tasks);
    if Expires(t) && t.phase == Work && FirstUndone(tasks).Some? {
      var i := FirstUndone(tasks).value;
      if UniqueIds(tasks) {
        TaskProperties.IncPomoSingleRecord(tasks, i);
      }
      assert events[0] == IncPomo(tasks[i].id);
    } else if Expires(t) {
      assert events == [Ambience(AfterTick(t).phase)];
    }
  }

  /** `reset` lands on the initial state, so doing it twice is doing it once. */
  lemma ResetIdempotent(t: TimerState)
    ensures AfterReset(t) == Initial()
    ensures AfterReset(AfterReset(t)) == AfterReset(t)
  {
  }

  /** The four commands of the store. */
  datatype Command = Start | Pause | Reset | Tick

  function Apply(t: TimerState, c: Command): TimerState {
    match c
    case Start => AfterStart(t)
    case Pause => AfterPause(t)
    case Reset => AfterReset(t)
    case Tick => AfterTick(t)
  }

  /** The state after running `cmds` in order from `t`. */
  function Run(t: TimerState, cmds: seq<Command>): TimerState
    decreases |cmds|
  {
    if cmds == [] then t else Run(Apply(t, cmds[0]), cmds[1..])
  }

  /** Every command keeps the invariant. */
  lemma CommandKeepsWellFormed(t: TimerState, c: Command)
    requires WellFormed(t)
    ensures WellFormed(Apply(t, c))
  {
  }

  lemma {:induction false} RunKeepsWellFormed(t: TimerState, cmds: seq<Command>)
    requires WellFormed(t)
    ensures WellFormed(Run(t, cmds))
    decreases |cmds|
  {
    if cmds != [] {
      CommandKeepsWellFormed(t, cmds[0]);
      RunKeepsWellFormed(Apply(t, cmds[0]), cmds[1..]);
    }
  }

  /** Every state reachable from the initial one has `cycle` in [0,3] and
      `1 <= secondsLeft <= Duration(phase)`. */
  lemma ReachableStatesWellFormed(cmds: seq<Command>)
    ensures 0 <= Run(Initial(), cmds).cycle <= 3
    ensures 1 <= Run(Initial(), cmds).secondsLeft <= Duration(Run(Initial(), cmds).phase)
  {
    RunKeepsWellFormed(Initial(), cmds);
  }

  /** `n` pulses in a row. */
  function TickN(t: TimerState, n: nat): TimerState
    decreases n
  {
    if n == 0 then t else TickN(AfterTick(t), n - 1)
  }

  lemma {:induction false} TickNAdd(t: TimerState, a: nat, b: nat)
    ensures TickN(t, a + b) == TickN(TickN(t, a), b)
    decreases a
  {
    if a != 0 {
      TickNAdd(AfterTick(t), a - 1, b);
    }
  }

  lemma {:induction false} CountsDownFor(t: TimerState, k: nat)
    requires t.isRunning && k < t.secondsLeft
    ensures TickN(t, k) == t.(secondsLeft := t.secondsLeft - k)
    decreases k
  {
    if k != 0 {
      CountsDownFor(AfterTick(t), k - 1);
    }
  }

  /** A running phase with `n` seconds left ends after exactly `n` pulses. */
  lemma PhaseRunsOut(t: TimerState, n: nat)
    requires t.isRunning && n >= 1 && t.secondsLeft == n
    ensures TickN(t, n) == AfterTick(t.(secondsLeft := 1))
  {
    var last := t.(secondsLeft := 1);
    CountsDownFor(t, n - 1);
    assert TickN(t, n - 1) == last;
    TickNAdd(t, n - 1, 1);
    OneTick(last);
  }

  lemma OneTick(t: TimerState)
    ensures TickN(t, 1) == AfterTick(t)
  {
    assert TickN(t, 1) == TickN(AfterTick(t), 0);
  }

  /** A full round from a running start: three work phases each followed by a
      short break, a fourth work phase followed by the long break, and then
      the state the round began in, 4 * WORK + 3 * SHORT + LONG pulses later. */
  lemma {:induction false} FullRound()
    ensures TickN(TimerState(Work, WORK, true, 0), 4 * WORK + 3 * SHORT) == TimerState(LongBreak, LONG, true, 3)
    ensures TickN(TimerState(Work, WORK, true, 0), 4 * WORK + 3 * SHORT + LONG) == TimerState(Work, WORK, true, 0)
  {
    var w0 := TimerState(Work, WORK, true, 0);
    var s0 := TimerState(ShortBreak, SHORT, true, 0);
    var w1 := TimerState(Work, WORK, true, 1);
    var s1 := TimerState(ShortBreak, SHORT, true, 1);
    var w2 := TimerState(Work, WORK, true, 2);
    var s2 := TimerState(ShortBreak, SHORT, true, 2);
    var w3 := TimerState(Work, WORK, true, 3);
    var l3 := TimerState(LongBreak, LONG, true, 3);
    PhaseRunsOut(w0, WORK); PhaseRunsOut(s0, SHORT); PhaseRunsOut(w1, WORK); PhaseRunsOut(s1, SHORT);
    PhaseRunsOut(w2, WORK); PhaseRunsOut(s2, SHORT); PhaseRunsOut(w3, WORK); PhaseRunsOut(l3, LONG);
    TickNAdd(w0, WORK, SHORT);
    TickNAdd(w0, WORK + SHORT, WORK);
    TickNAdd(w0, 2 * WORK + SHORT, SHORT);
    TickNAdd(w0, 2 * WORK + 2 * SHORT, WORK);
    TickNAdd(w0, 3 * WORK + 2 * SHORT, SHORT);
    TickNAdd(w0, 3 * WORK + 3 * SHORT, WORK);
    TickNAdd(w0, 4 * WORK + 3 * SHORT, LONG);
  }
}
