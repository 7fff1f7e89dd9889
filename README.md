# Pomodoro timer and task list, modelled in Dafny

This project models the core of a Pomodoro-style productivity timer. The core has two stores.

- **Timer store.** It has four fields: `phase` (work, short break or long break), `secondsLeft`, `isRunning` and `cycle`. It has four commands: `start`, `pause`, `reset` and `tick`. An external 1 Hz pulse calls `tick`. It counts down. On the last second it moves to the next phase:
  - a work phase leads to a short break while `cycle < 3`, and to a long break at `cycle == 3`;
  - a break leads back to work, and `cycle` advances modulo 4 on that entry to work.
- **Task store.** It holds an ordered list of task records `{id, title, done, pomos, estPomos}`. Its actions `addTask`, `toggleTask`, `deleteTask` and `incPomo` each compute a new list (by append, map or filter) and store it.

When a work phase ends, the timer credits one pomodoro to the id of the first unfinished task; with unique ids that is exactly that one task. Each phase change also requests the ambience for the new phase.

## How the model is built

- `tasks.dfy`, module `Tasks`:
  - the `Task` record;
  - each action as a pure function over `seq<Task>` (`AddTaskTo`, `ToggleTaskIn`, `DeleteTaskFrom`, `IncPomoIn`), built on `Map` and `Filter`;
  - a `TaskStore` class. It has the one mutable `tasks` field, and each method reassigns that field with the matching function.
- `task_properties.dfy`, module `TaskProperties`: lemmas about the list actions. They cover:
  - toggling twice gives back the original list;
  - an absent id changes nothing;
  - `deleteTask` keeps the order of the records it keeps;
  - id uniqueness is kept;
  - with unique ids, `incPomo` touches exactly one record;
  - `pomos` never decreases.
- `timer.dfy`, module `Timer`:
  - the phases and the duration constants;
  - `NextPhase`;
  - the timer fields as a value `TimerState`;
  - the invariant `WellFormed`;
  - specification functions for each command's effect on the fields (`AfterStart`, `AfterPause`, `AfterReset`, `AfterTick`), on the task list (`TickTasks`) and on the event log (`StartEvents`, `ResetEvents`, `TickEvents`);
  - the `TimerStore` class. Its methods follow the source step by step and are proved against those functions. `Tick` credits the composed `TaskStore` directly.
- `timer_properties.dfy`, module `TimerProperties`. It proves:
  - each branch of `tick`;
  - that `cycle` stays in [0,3] and `1 <= secondsLeft <= Duration(phase)` on every state reachable from the initial one;
  - that the credit goes to the first unfinished task's id, and, with unique ids, raises exactly that task's count;
  - that a full round takes exactly `4*WORK + 3*SHORT + LONG` pulses: the long break comes after the fourth work phase.

Side effects are modelled as an event log. `PlayWork` and `PlayBreak` stand for the sound store's `playWork`/`playBreak`. `IncPomo(id)` stands for the task store's `incPomo`. The event log is the `events` field of `TimerStore`.

`start` and `reset` read the sound store's `on` flag before they request ambience. In the model that flag is the parameter `soundOn`. `tick` requests ambience without checking the flag, as the source does.

### What this store does and does not do

- `reset` returns to `work` with `secondsLeft = WORK`, `isRunning = false` and `cycle = 0` (`src/stores/useTimerStore.ts:49`). It starts the whole cycle again, not only the current phase.
- A phase change sets `phase`, `secondsLeft` and `cycle` and leaves `isRunning` as it was (`src/stores/useTimerStore.ts:76`). The timer runs straight on into the next phase.
- The settings dialog calls `setDurations` and reads `workDuration` (`src/components/SettingsModal.tsx:15,81`). The timer store defines neither, so the durations are fixed and nothing in the model changes them.
- The durations are written as `0.3 * 60`, `0.1 * 60` and `0.2 * 60` (`src/stores/useTimerStore.ts:16-18`). Each product rounds to exactly 18, 6 and 12 in double precision, so the model uses the integer constants `WORK = 18`, `SHORT = 6` and `LONG = 12` seconds.

## Model

| member | source | states |
|---|---|---|
| Tasks.Map | src/stores/useTaskStore.ts:30 | `map` keeps the length, and position `i` of the result is `f` applied to position `i` of the input |
| Tasks.Filter | src/stores/useTaskStore.ts:33 | `filter` keeps exactly the records satisfying the predicate, is no longer than its input, and is the identity when every record satisfies it |
| Tasks.EstimateOrDefault | src/stores/useTaskStore.ts:24 | the default argument `estPomos = 1`: the given estimate, or 1 when none is passed |
| Tasks.AddTaskTo | src/stores/useTaskStore.ts:24-26 | `addTask` appends one record at the end: the old list is an unchanged prefix; the new record has the given id and title, `done = false`, `pomos = 0`, and `estPomos` as given or 1 by default |
| Tasks.ToggleTaskIn | src/stores/useTaskStore.ts:28-31 | `toggleTask` keeps the length, flips `done` exactly on the records whose id matches, and changes no other field of any record |
| Tasks.DeleteTaskFrom | src/stores/useTaskStore.ts:32-33 | `deleteTask` keeps a record iff it was in the list and its id differs; the list is unchanged when no record has the id |
| Tasks.IncPomoIn | src/stores/useTaskStore.ts:34-37 | `incPomo` keeps the length, raises `pomos` by exactly 1 on the records whose id matches and by 0 elsewhere, and changes no other field |
| Tasks.TaskStore.constructor | src/stores/useTaskStore.ts:23 | the store starts with an empty list |
| Tasks.TaskStore.AddTask | src/stores/useTaskStore.ts:24-27 | the stored list becomes `AddTaskTo` of the old one; a fresh id keeps the ids unique |
| Tasks.TaskStore.ToggleTask | src/stores/useTaskStore.ts:28-31 | the stored list becomes `ToggleTaskIn` of the old one |
| Tasks.TaskStore.DeleteTask | src/stores/useTaskStore.ts:32-33 | the stored list becomes `DeleteTaskFrom` of the old one |
| Tasks.TaskStore.IncPomo | src/stores/useTaskStore.ts:34-37 | the stored list becomes `IncPomoIn` of the old one |
| TaskProperties.ToggleTwice | src/stores/useTaskStore.ts:28-31 | toggling the same id twice is the identity on the list |
| TaskProperties.AbsentIdIsNoOp | src/stores/useTaskStore.ts:28-37 | `toggleTask`, `deleteTask` and `incPomo` of an id no record carries leave the list unchanged |
| TaskProperties.FilterAppend | src/stores/useTaskStore.ts:33 | `filter` distributes over concatenation, so it keeps relative order |
| TaskProperties.DeleteKeepsOrder | src/stores/useTaskStore.ts:32-33 | deleting from `a + b` is deleting from `a` followed by deleting from `b`: the kept records stay in order |
| TaskProperties.DeleteSingle | src/stores/useTaskStore.ts:33 | on a single record, `deleteTask` removes it iff its id matches |
| TaskProperties.FilterKeepsUniqueIds | src/stores/useTaskStore.ts:33 | filtering a list with unique ids gives a list with unique ids |
| TaskProperties.ActionsKeepUniqueIds | src/stores/useTaskStore.ts:24-37 | from unique ids, `toggleTask`, `deleteTask` and `incPomo` keep them unique, and `addTask` does too when its id is fresh |
| TaskProperties.IncPomoSingleRecord | src/stores/useTaskStore.ts:34-37 | with unique ids, `incPomo` of record `k`'s id is exactly record `k` with `pomos + 1` and every other record unchanged |
| TaskProperties.PomosNeverDecrease | src/stores/useTaskStore.ts:24-37 | `toggleTask` and `addTask` keep every old record's `pomos`, `deleteTask` keeps only old records, and `incPomo` never lowers a count |
| Timer.Duration | src/stores/useTimerStore.ts:16-18 | every phase length is positive, and the three lengths `WORK`, `SHORT`, `LONG` are distinct, so each names its phase |
| Timer.Ambience | src/stores/useTimerStore.ts:39-43 | work ambience (`playWork`) for work, break ambience (`playBreak`) for either break, as both `start` and `tick` (:80-81) choose it |
| Timer.NextPhase | src/stores/useTimerStore.ts:20-25 | the returned duration is the full length of the returned phase; the next phase is work iff the current one is not; after work it is a short break iff `cycle < 3` |
| Timer.JsRem | src/stores/useTimerStore.ts:66 | JavaScript's `%` lies strictly between `-b` and `b`, equals Dafny's `%` for a non-negative dividend, and is non-positive for a negative one |
| TimerProperties.JsRemOdd | src/stores/useTimerStore.ts:66 | negating the dividend negates JavaScript's remainder; with `JsRem`'s non-negative case this fixes its value on every input |
| Timer.Initial | src/stores/useTimerStore.ts:27-31 | the initial state is `phase = work`, `secondsLeft = WORK`, `cycle = 0`, not running, and well-formed |
| Timer.AfterStart | src/stores/useTimerStore.ts:34 | `start` sets `isRunning` and keeps `phase`, `secondsLeft` and `cycle`; it keeps the invariant |
| Timer.StartEvents | src/stores/useTimerStore.ts:35-45 | `start` requests exactly one ambience when sound is on and none otherwise, and it is the current phase's (work for work, break for either break) |
| Timer.AfterPause | src/stores/useTimerStore.ts:47 | `pause` clears `isRunning` and keeps `phase`, `secondsLeft` and `cycle`; it keeps the invariant |
| Timer.AfterReset | src/stores/useTimerStore.ts:49 | `reset` lands on the initial state whatever the state before: work, the full work length, stopped, cycle 0 |
| Timer.ResetEvents | src/stores/useTimerStore.ts:51-54 | `reset` requests exactly one ambience when sound is on and none otherwise, and it is work ambience |
| Timer.Expires | src/stores/useTimerStore.ts:59-63 | a tick ends the phase when the countdown runs, is not at zero, and one more second leaves nothing; on a well-formed state that is exactly at one second left |
| Timer.AfterTick | src/stores/useTimerStore.ts:57-83 | a tick keeps `isRunning`; it changes the phase exactly when the phase expires, then storing the new phase's full length; `cycle` changes only on entry to work; the invariant is kept |
| Timer.TickTasks | src/stores/useTimerStore.ts:68-73 | a tick leaves the task list unchanged unless a work phase ends; it keeps the length and every field but `pomos`, which never goes down |
| Timer.TickEvents | src/stores/useTimerStore.ts:68-82 | a tick emits events exactly when a phase ends, at most two, the last being the ambience of the phase it enters; when a work phase ends with an unfinished task they are exactly `[IncPomo(id of the first unfinished task), ambience]`, and on every other phase change (any break ending, a work phase ending with all tasks done) exactly `[ambience]` |
| Timer.FirstUndone | src/stores/useTimerStore.ts:71 | `find(t => !t.done)` gives a position of an unfinished task with every earlier task done, or none when all tasks are done |
| Timer.TimerStore.constructor | src/stores/useTimerStore.ts:27-31 | the store starts at `phase = work`, `secondsLeft = WORK`, `isRunning = false`, `cycle = 0`, with an empty event log |
| Timer.TimerStore.Start | src/stores/useTimerStore.ts:33-46 | only `isRunning` changes, to true; when sound is on, the ambience of the current phase is requested |
| Timer.TimerStore.Pause | src/stores/useTimerStore.ts:47 | only `isRunning` changes, to false; no event |
| Timer.TimerStore.Reset | src/stores/useTimerStore.ts:48-55 | the fields become `work`, `WORK`, not running, cycle 0; when sound is on, work ambience is requested |
| Timer.TimerStore.Tick | src/stores/useTimerStore.ts:57-83 | the fields, the task list and the event log become exactly `AfterTick`, `TickTasks` and `TickEvents` of the old state; the invariant is kept |
| TimerProperties.TickIdle | src/stores/useTimerStore.ts:59 | when stopped or at zero, a tick changes no field, no task, and emits nothing |
| TimerProperties.TickCountsDown | src/stores/useTimerStore.ts:61-62 | with more than one second left, a tick only decrements `secondsLeft`, emits nothing, and leaves the tasks alone |
| TimerProperties.WorkEndsInBreak | src/stores/useTimerStore.ts:20-23 | the last second of work leads to a short break of `SHORT` seconds when `cycle < 3`, else to a long break of `LONG`, keeping `cycle` and running |
| TimerProperties.BreakEndsInWork | src/stores/useTimerStore.ts:64-66 | the last second of either break leads to work with `WORK` seconds, cycle `(cycle + 1) % 4`, still running |
| TimerProperties.TransitionKeepsRunning | src/stores/useTimerStore.ts:76-82 | a phase change changes the phase, keeps `isRunning`, stores the new phase's full length, and ends its events with that phase's ambience |
| TimerProperties.CycleMovesOnlyIntoWork | src/stores/useTimerStore.ts:66 | `cycle` changes only on a tick that leaves a break for work |
| TimerProperties.TickCreditsFirstUndone | src/stores/useTimerStore.ts:68-73 | for every task list: an `IncPomo` event is emitted iff a work phase ends while some task is unfinished; the list then becomes `incPomo` of the first unfinished task's id and the events are that credit and the new ambience; otherwise the list is unchanged, and a phase change emits the new ambience alone. With unique ids, the list changes in exactly that task's `pomos` (+1) |
| TimerProperties.ResetIdempotent | src/stores/useTimerStore.ts:49 | `reset` lands on the initial state, so two resets equal one |
| TimerProperties.CommandKeepsWellFormed | src/stores/useTimerStore.ts:33-83 | each of `start`, `pause`, `reset` and `tick` keeps `cycle` in [0,3] and `1 <= secondsLeft <= Duration(phase)` |
| TimerProperties.RunKeepsWellFormed | src/stores/useTimerStore.ts:27-83 | any sequence of commands from a well-formed state ends in a well-formed state |
| TimerProperties.ReachableStatesWellFormed | src/stores/useTimerStore.ts:16-31 | every state reachable from the initial one has `cycle` in [0,3] and `1 <= secondsLeft <= Duration(phase)` |
| TimerProperties.OneTick | src/stores/useTimerStore.ts:57-83 | helper of `PhaseRunsOut`: a run of one tick (`TickN(t, 1)`) is that tick |
| TimerProperties.CountsDownFor | src/stores/useTimerStore.ts:61-62 | running with more than `k` seconds left, `k` ticks lower `secondsLeft` by exactly `k` and change nothing else |
| TimerProperties.PhaseRunsOut | src/stores/useTimerStore.ts:57-76 | a running phase with `n` seconds left ends after exactly `n` ticks, as its last second would |
| TimerProperties.FullRound | src/stores/useTimerStore.ts:20-24 | from running work at cycle 0, the long break starts after `4*WORK + 3*SHORT` ticks (four work phases, three short breaks) at cycle 3, and work at cycle 0 returns `LONG` ticks later |

## Left out

- Sound store (`src/stores/useSoundStore.ts`): it wraps Howler audio objects. Ambience is modelled only as the logged `PlayWork`/`PlayBreak` requests. The store's `on` check inside `playWork`/`playBreak` is not modelled; the reads of `on` by `start` and `reset` are the `soundOn` parameter.
- Asynchronous dispatch: the source loads the sound and task stores with `import(...).then`. The model runs these calls synchronously, in the order the source issues them. In the model the credit reads the task list before the timer's fields are set; in the source it reads the list later, when the promise resolves. Likewise `start` and `reset` read the sound store's `on` flag (and `start` the current `phase`) only when their promise resolves; the model reads them at the call, with `soundOn` standing for the flag at that later moment. Nothing else writes the task list in between, so the outcome is the same.
- Persistence of the task list to local storage through `persist`: storage I/O.
- Id generation from `Date.now` and `Math.random` in `addTask`: it is non-deterministic, so the id is a parameter. Uniqueness of ids is an assumption on that generator: uniqueness after `addTask` is proved only for a fresh id (`ActionsKeepUniqueIds`, `TaskStore.AddTask`).
- JavaScript numbers: fields are unbounded integers. Only integer values are ever stored. The one floating-point expression, the duration constants, is replaced by its exact value.
- The 1 Hz `setInterval` pulse, the hotkeys and the `mm:ss` display in `src/app/page.tsx`: these are browser timer, input and presentation code.
- React components, the service worker, the HTTP routes that forward to the store, the app layout, the build configuration and the preference store. They hold no timer or task logic.
