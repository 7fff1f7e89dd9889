/** The timer store: a phase (work, short break, long break), the seconds
    left in it, whether the countdown runs, and the cycle counter that routes
    every fourth break to a long one. Its side effects (ambience requests to
    the sound store, the pomodoro credit to the task store) are recorded as
    events in a log; the credit is also applied to a task store directly. */
module Timer {
  import opened Tasks

  datatype Phase = Work | ShortBreak | LongBreak

  // Phase lengths in seconds: 0.3, 0.1 and 0.2 minutes.
  const WORK: int := 18
  const SHORT: int := 6
  const LONG: int := 12

  /** The length of a phase. */
  function Duration(p: Phase): (r: int)
    ensures r > 0
    // the three lengths differ, so a length names its phase
    ensures (r == WORK <==> p == Work) && (r == SHORT <==> p == ShortBreak) && (r == LONG <==> p == LongBreak)
  {
    match p
    case Work => WORK
    case ShortBreak => SHORT
    case LongBreak => LONG
  }

  /** The phase that follows `p` at cycle `c`, with its full length. */
  function NextPhase(p: Phase, c: int): (r: (Phase, int))
    ensures r.1 == Duration(r.0) && r.1 > 0
    ensures r.0 == Work <==> p != Work
    ensures p == Work ==> (r.0 == ShortBreak <==> c < 3)
  {
    if p == Work then
      if c < 3 then (ShortBreak, SHORT) else (LongBreak, LONG)
    else
      (Work, WORK)
  }

  /** The remainder of JavaScript's `%`: it has the sign of the dividend. */
  function JsRem(a: int, b: int): (r: int)
    requires b > 0
    ensures -b < r < b
    ensures a >= 0 ==> r == a % b
    ensures a < 0 ==> r <= 0
  {
    if a >= 0 then a % b else -((-a) % b)
  }

  /** The four observable fields of the store. */
  datatype TimerState = TimerState(phase: Phase, secondsLeft: int, isRunning: bool, cycle: int)

  /** A side effect the store asks for: the sound store's `playWork` or
      `playBreak`, or the task store's `incPomo` of the given id. */
  datatype Event = PlayWork | PlayBreak | IncPomo(taskId: string)

  /** The invariant every reachable state keeps. */
  predicate WellFormed(t: TimerState) {
    0 <= t.cycle <= 3 && 1 <= t.secondsLeft <= Duration(t.phase)
  }

  /** The state the store is created with. */
  function Initial(): (t: TimerState)
    ensures t.phase == Work && t.secondsLeft == WORK && t.cycle == 0
    ensures WellFormed(t) && !t.isRunning
  {
    TimerState(Work, WORK, false, 0)
  }

  /** The ambience request that suits a phase. */
  function Ambience(p: Phase): (r: Event)
    ensures r == PlayWork <==> p == Work
    ensures r == PlayBreak <==> p != Work
  {
    if p == Work then PlayWork else PlayBreak
  }

  /** `start` sets the run flag and nothing else. */
  function AfterStart(t: TimerState): (r: TimerState)
    ensures r.isRunning
    ensures r.phase == t.phase && r.secondsLeft == t.secondsLeft && r.cycle == t.cycle
    ensures WellFormed(t) ==> WellFormed(r)
  {
    t.(isRunning := true)
  }

  /** `start` asks for the current phase's ambience when sound is on. */
  function StartEvents(t: TimerState, soundOn: bool): (r: seq<Event>)
    ensures |r| == (if soundOn then 1 else 0)
    ensures forall e :: e in r ==> e == Ambience(t.phase)
  {
    if soundOn then [Ambience(t.phase)] else []
  }

  /** `pause` clears the run flag and nothing else. */
  function AfterPause(t: TimerState): (r: TimerState)
    ensures !r.isRunning
    ensures r.phase == t.phase && r.secondsLeft == t.secondsLeft && r.cycle == t.cycle
    ensures WellFormed(t) ==> WellFormed(r)
  {
    t.(isRunning := false)
  }

  /** `reset` goes back to the start of the whole cycle, not of the phase. */
  function AfterReset(t: TimerState): (r: TimerState)
    ensures r == Initial()
    ensures r.phase == Work && r.secondsLeft == Duration(Work) && !r.isRunning && r.cycle == 0
  {
    TimerState(Work, WORK, false, 0)
  }

  /** `reset` asks for work ambience when sound is on. */
  function ResetEvents(soundOn: bool): (r: seq<Event>)
    ensures |r| == (if soundOn then 1 else 0)
    ensures forall e :: e in r ==> e == Ambience(Work)
  {
    if soundOn then [PlayWork] else []
  }

  /** The tick that ends the current phase: the countdown runs and one more
      second would leave nothing. */
  predicate Expires(t: TimerState)
    ensures Expires(t) && WellFormed(t) ==> t.secondsLeft == 1
  {
    t.isRunning && t.secondsLeft != 0 && t.secondsLeft - 1 <= 0
  }

  /** The fields after one `tick`. The cycle counter moves on only when
      the next phase is work. */
  function AfterTick(t: TimerState): (r: TimerState)
    // a tick never starts or stops the countdown
    ensures r.isRunning == t.isRunning
    // the phase changes exactly on the expiring tick, to its full length
    ensures r.phase != t.phase <==> Expires(t)
    ensures Expires(t) ==> r.secondsLeft == Duration(r.phase)
    // `cycle` moves only on entry to work
    ensures r.cycle != t.cycle ==> t.phase != Work && r.phase == Work
    ensures WellFormed(t) ==> WellFormed(r)
  {
    if !t.isRunning || t.secondsLeft == 0 then t
    else if t.secondsLeft - 1 > 0 then t.(secondsLeft := t.secondsLeft - 1)
    else
      var (p, d) := NextPhase(t.phase, t.cycle);
      TimerState(p, d, t.isRunning, if p == Work then JsRem(t.cycle + 1, 4) else t.cycle)
  }

  /** `tasks.find(t => !t.done)`, as the position of the record it finds. */
  function FirstUndone(tasks: seq<Task>): (r: Option<nat>)
    ensures r.Some? ==> r.value < |tasks| && !tasks[r.value].done
    ensures r.Some? ==> forall j :: 0 <= j < r.value ==> tasks[j].done
    ensures r.None? ==> forall j :: 0 <= j < |tasks| ==> tasks[j].done
  {
    if tasks == [] then None
    else if !tasks[0].done then Some(0)
    else
      match FirstUndone(tasks[1..])
      case None => None
      case Some(i) => Some(i + 1)
  }

  /** The task list after a `tick`: when a work phase ends, the first
      unfinished task is credited with one pomodoro. */
  function TickTasks(t: TimerState, tasks: seq<Task>): (r: seq<Task>)
    ensures |r| == |tasks|
    // the list changes only when a work phase ends
    ensures !(Expires(t) && t.phase == Work) ==> r == tasks
    // and then only in `pomos`, which never goes down
    ensures forall i :: 0 <= i < |tasks| ==> r[i].(pomos := tasks[i].pomos) == tasks[i]
    ensures forall i :: 0 <= i < |tasks| ==> r[i].pomos >= tasks[i].pomos
  {
    if Expires(t) && t.phase == Work then
      match FirstUndone(tasks)
      case None => tasks
      case Some(i) => IncPomoIn(tasks, tasks[i].id)
    else
      tasks
  }

  /** The events of a `tick`: the credit (when a work phase ends and an
      unfinished task exists), then the ambience of the phase it enters. */
  function TickEvents(t: TimerState, tasks: seq<Task>): (r: seq<Event>)
    ensures r == [] <==> !Expires(t)
    ensures |r| <= 2
    ensures Expires(t) ==> r[|r| - 1] == Ambience(AfterTick(t).phase)
    // the expiring work phase with an unfinished task: the credit, then the ambience
    ensures Expires(t) && t.phase == Work && FirstUndone(tasks).Some? ==>
      r == [IncPomo(tasks[FirstUndone(tasks).value].id), Ambience(AfterTick(t).phase)]
    // any other phase change: the ambience request alone
    ensures Expires(t) && !(t.phase == Work && FirstUndone(tasks).Some?) ==>
      r == [Ambience(AfterTick(t).phase)]
  {
    if !Expires(t) then []
    else
      var credit :=
        if t.phase != Work then []
        else match FirstUndone(tasks)
          case None => []
          case Some(i) => [IncPomo(tasks[i].id)];
      credit + [Ambience(AfterTick(t).phase)]
  }

  /** The store. `events` is the log of requested side effects; `taskStore`
      is the task store `tick` credits. */
  class TimerStore {
    var phase: Phase
    var secondsLeft: int
    var isRunning: bool
    var cycle: int
    var events: seq<Event>
    const taskStore: TaskStore

    function State(): TimerState
      reads this
    {
      TimerState(phase, secondsLeft, isRunning, cycle)
    }

    predicate Valid()
      reads this
    {
      WellFormed(State())
    }

    constructor (taskStore: TaskStore)
      ensures State() == Initial() && Valid()
      ensures events == [] && this.taskStore == taskStore
    {
      phase, secondsLeft, isRunning, cycle := Work, WORK, false, 0;
      events := [];
      this.taskStore := taskStore;
    }

    /** `soundOn` is the sound store's `on` flag when the ambience request
        is made. */
    method Start(soundOn: bool)
      modifies this
      ensures State() == AfterStart(old(State()))
      ensures events == old(events) + StartEvents(old(State()), soundOn)
      ensures old(Valid()) ==> Valid()
    {
      isRunning := true;
      if soundOn {
        events := events + [Ambience(phase)];
      }
    }

    method Pause()
      modifies this
      ensures State() == AfterPause(old(State()))
      ensures events == old(events)
      ensures old(Valid()) ==> Valid()
    {
      isRunning := false;
    }

    /** `soundOn` is the sound store's `on` flag when the ambience request
        is made. */
    method Reset(soundOn: bool)
      modifies this
      ensures State() == AfterReset(old(State())) && Valid()
      ensures events == old(events) + ResetEvents(soundOn)
    {
      phase, secondsLeft, isRunning, cycle := Work, WORK, false, 0;
      if soundOn {
        events := events + [Ambience(Work)];
      }
    }

    /** One second of the 1 Hz pulse. */
    method Tick()
      modifies this, taskStore
      ensures State() == AfterTick(old(State()))
      ensures taskStore.tasks == TickTasks(old(State()), old(taskStore.tasks))
      ensures events == old(events) + TickEvents(old(State()), old(taskStore.tasks))
      ensures old(Valid()) ==> Valid()
    {
      if !isRunning || secondsLeft == 0 {
        return;
      }
      var left := secondsLeft - 1;
      if left > 0 {
        secondsLeft := left;
        return;
      }
      var (newPhase, newDuration) := NextPhase(phase, cycle);
      var newCycle := if newPhase == Work then JsRem(cycle + 1, 4) else cycle;
      if phase == Work {
        var active := FirstUndone(taskStore.tasks);
        if active.Some? {
          var id := taskStore.tasks[active.value].id;
          taskStore.IncPomo(id);
          events := events + [IncPomo(id)];
        }
      }
      phase, secondsLeft, cycle := newPhase, newDuration, newCycle;
      events := events + [Ambience(newPhase)];
    }
  }
}
