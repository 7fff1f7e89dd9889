/** The task list store: an ordered list of task records and the four
    actions that rebuild it (append, map, filter) before storing it back. */
module Tasks {

  datatype Option<T> = None | Some(value: T)

  /** One task record. `pomos` counts the work phases completed on it,
      `estPomos` is the user's estimate. */
  datatype Task = Task(id: string, title: string, done: bool, pomos: int, estPomos: int)

  /** `s.map(f)` on a task list. */
  function Map(s: seq<Task>, f: Task -> Task): (r: seq<Task>)
    ensures |r| == |s|
    ensures forall i :: 0 <= i < |s| ==> r[i] == f(s[i])
  {
    if s == [] then [] else [f(s[0])] + Map(s[1..], f)
  }

  /** `s.filter(p)` on a task list: keeps exactly the records satisfying `p`,
      and returns the list unchanged when every record satisfies it. */
  function Filter(s: seq<Task>, p: Task -> bool): (r: seq<Task>)
    ensures |r| <= |s|
    ensures forall t :: t in r <==> t in s && p(t)
    ensures (forall i :: 0 <= i < |s| ==> p(s[i])) ==> r == s
  {
    if s == [] then [] else (if p(s[0]) then [s[0]] else []) + Filter(s[1..], p)
  }

  /** The estimate `addTask` stores: its optional argument, 1 by default. */
  function EstimateOrDefault(estPomos: Option<int>): (r: int)
    ensures estPomos == Some(r) || (estPomos == None && r == 1)
  {
    match estPomos
    case Some(n) => n
    case None => 1
  }

  /** The new list `addTask` stores: the old one with one fresh record appended. */
  function AddTaskTo(tasks: seq<Task>, id: string, title: string, estPomos: Option<int>): (r: seq<Task>)
    ensures |r| == |tasks| + 1
    ensures r[..|tasks|] == tasks
    ensures r[|tasks|].id == id && r[|tasks|].title == title
    ensures !r[|tasks|].done && r[|tasks|].pomos == 0
    ensures r[|tasks|].estPomos == (if estPomos.Some? then estPomos.value else 1)
  {
    tasks + [Task(id, title, false, 0, EstimateOrDefault(estPomos))]
  }

  /** The new list `toggleTask(id)` stores. */
  function ToggleTaskIn(tasks: seq<Task>, id: string): (r: seq<Task>)
    ensures |r| == |tasks|
    // `done` flips exactly on the records whose id matches
    ensures forall i :: 0 <= i < |tasks| ==> r[i].done == (tasks[i].done != (tasks[i].id == id))
    // and nothing else changes
    ensures forall i :: 0 <= i < |tasks| ==> r[i].(done := tasks[i].done) == tasks[i]
  {
    Map(tasks, (t: Task) => if t.id == id then t.(done := !t.done) else t)
  }

  /** The new list `deleteTask(id)` stores. */
  function DeleteTaskFrom(tasks: seq<Task>, id: string): (r: seq<Task>)
    ensures forall t :: t in r <==> t in tasks && t.id != id
    ensures (forall i :: 0 <= i < |tasks| ==> tasks[i].id != id) ==> r == tasks
  {
    Filter(tasks, (t: Task) => t.id != id)
  }

  /** The new list `incPomo(id)` stores. */
  function IncPomoIn(tasks: seq<Task>, id: string): (r: seq<Task>)
    ensures |r| == |tasks|
    // `pomos` rises by one exactly on the records whose id matches
    ensures forall i :: 0 <= i < |tasks| ==>
      r[i].pomos == tasks[i].pomos + (if tasks[i].id == id then 1 else 0)
    // and nothing else changes
    ensures forall i :: 0 <= i < |tasks| ==> r[i].(pomos := tasks[i].pomos) == tasks[i]
  {
    Map(tasks, (t: Task) => if t.id == id then t.(pomos := t.pomos + 1) else t)
  }

  /** No two records share an id. */
  predicate UniqueIds(tasks: seq<Task>) {
    forall i, j :: 0 <= i < j < |tasks| ==> tasks[i].id != tasks[j].id
  }

  /** True when no record carries `id`. */
  predicate FreshId(tasks: seq<Task>, id: string) {
    forall i :: 0 <= i < |tasks| ==> tasks[i].id != id
  }

  /** The store: one mutable field, overwritten by each action with a list
      computed from the old one. The identifier `addTask` draws from the
      clock and a random source is a parameter here. */
  class TaskStore {
    var tasks: seq<Task>

    constructor ()
      ensures tasks == []
    {
      tasks := [];
    }

    method AddTask(id: string, title: string, estPomos: Option<int>)
      modifies this
      ensures tasks == AddTaskTo(old(tasks), id, title, estPomos)
      ensures UniqueIds(old(tasks)) && FreshId(old(tasks), id) ==> UniqueIds(tasks)
    {
      tasks := AddTaskTo(tasks, id, title, estPomos);
    }

    method ToggleTask(id: string)
      modifies this
      ensures tasks == ToggleTaskIn(old(tasks), id)
    {
      tasks := ToggleTaskIn(tasks, id);
    }

    method DeleteTask(id: string)
      modifies this
      ensures tasks == DeleteTaskFrom(old(tasks), id)
    {
      tasks := DeleteTaskFrom(tasks, id);
    }

    method IncPomo(id: string)
      modifies this
      ensures tasks == IncPomoIn(old(tasks), id)
    {
      tasks := IncPomoIn(tasks, id);
    }
  }
}
