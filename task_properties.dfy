/** What the four task-list actions promise: what they leave unchanged,
    id uniqueness, order, and that `pomos` only ever grows. */
module TaskProperties {
  import opened Tasks

  /** Toggling the same id twice gives back the original list. */
  lemma ToggleTwice(tasks: seq<Task>, id: string)
    ensures ToggleTaskIn(ToggleTaskIn(tasks, id), id) == tasks
  {
  }

  /** An action naming an id that no record carries leaves the list as it is. */
  lemma AbsentIdIsNoOp(tasks: seq<Task>, id: string)
    requires FreshId(tasks, id)
    ensures ToggleTaskIn(tasks, id) == tasks
    ensures DeleteTaskFrom(tasks, id) == tasks
    ensures IncPomoIn(tasks, id) == tasks
  {
  }

  /** `filter` works element by element, so it keeps the relative order. */
  lemma {:induction false} FilterAppend(a: seq<Task>, b: seq<Task>, p: Task -> bool)
    ensures Filter(a + b, p) == Filter(a, p) + Filter(b, p)
  {
    if a == [] {
      assert a + b == b;
    } else {
      assert (a + b)[1..] == a[1..] + b;
      FilterAppend(a[1..], b, p);
    }
  }

  /** `deleteTask` keeps the relative order of the records it keeps: deleting
      from a concatenation deletes from each part. */
  lemma DeleteKeepsOrder(a: seq<Task>, b: seq<Task>, id: string)
    ensures DeleteTaskFrom(a + b, id) == DeleteTaskFrom(a, id) + DeleteTaskFrom(b, id)
  {
    FilterAppend(a, b, (t: Task) => t.id != id);
  }

  /** `deleteTask` on a one-record list keeps the record iff its id differs. */
  lemma DeleteSingle(t: Task, id: string)
    ensures DeleteTaskFrom([t], id) == if t.id == id then [] else [t]
  {
  }

  lemma {:induction false} FilterKeepsUniqueIds(s: seq<Task>, p: Task -> bool)
    requires UniqueIds(s)
    ensures UniqueIds(Filter(s, p))
  {
    if s != [] {
      var rest := Filter(s[1..], p);
      FilterKeepsUniqueIds(s[1..], p);
      forall j | 0 <= j < |rest| ensures rest[j].id != s[0].id {
        assert rest[j] in s[1..];
        var k :| 0 <= k < |s[1..]| && s[1..][k] == rest[j];
        assert s[k + 1] == rest[j];
      }
    }
  }

  /** Given a fresh id for `addTask`, every action keeps the ids unique. */
  lemma ActionsKeepUniqueIds(tasks: seq<Task>, id: string, newId: string, title: string, estPomos: Option<int>)
    requires UniqueIds(tasks)
    ensures FreshId(tasks, newId) ==> UniqueIds(AddTaskTo(tasks, newId, title, estPomos))
    ensures UniqueIds(ToggleTaskIn(tasks, id))
    ensures UniqueIds(DeleteTaskFrom(tasks, id))
    ensures UniqueIds(IncPomoIn(tasks, id))
  {
    var toggled := ToggleTaskIn(tasks, id);
    var bumped := IncPomoIn(tasks, id);
    forall i | 0 <= i < |tasks| ensures toggled[i].id == tasks[i].id && bumped[i].id == tasks[i].id {
    }
    FilterKeepsUniqueIds(tasks, (t: Task) => t.id != id);
  }

  /** With unique ids, `incPomo` of a record's id raises that record's count
      and touches no other record. */
  lemma IncPomoSingleRecord(tasks: seq<Task>, k: int)
    requires UniqueIds(tasks) && 0 <= k < |tasks|
    ensures IncPomoIn(tasks, tasks[k].id) == tasks[k := tasks[k].(pomos := tasks[k].pomos + 1)]
  {
  }

  /** No action lowers a `pomos` count, and only `incPomo` changes one:
      the records `toggleTask` and `deleteTask` leave, and the old records
      after `addTask`, carry the counts they had; the new one starts at 0. */
  lemma PomosNeverDecrease(tasks: seq<Task>, id: string, newId: string, title: string, estPomos: Option<int>)
    ensures forall i :: 0 <= i < |tasks| ==> ToggleTaskIn(tasks, id)[i].pomos == tasks[i].pomos
    ensures forall t :: t in DeleteTaskFrom(tasks, id) ==> t in tasks
    ensures forall i :: 0 <= i < |tasks| ==> AddTaskTo(tasks, newId, title, estPomos)[i].pomos == tasks[i].pomos
    ensures forall i :: 0 <= i < |tasks| ==> IncPomoIn(tasks, id)[i].pomos >= tasks[i].pomos
  {
  }
}
