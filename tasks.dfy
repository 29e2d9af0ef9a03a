/** The task store of `TaskProvider`: the list of tasks held as state and
    replaced, after each request settles, by the list with the created task
    appended, the deleted task removed or the updated task merged. */
module Tasks {
  import opened Js
  import opened Listing

  /** A task as the server returns it: a plain object with a numeric `id`,
      a `title` and optional fields. */
  type Task = Obj

  /** `task.id == id` for a task whose `id` is a number. */
  function HasId(t: Task, id: int): (b: bool)
    ensures b <==> "id" in t && t["id"] == Num(id)
  {
    Get(t, "id") == Num(id)
  }

  function KeepsOtherIds(id: int): Task -> bool
  {
    (t: Task) => !HasId(t, id)
  }

  /** `tasks.filter(task => task.id != id)`. */
  function RemoveId(tasks: seq<Task>, id: int): (r: seq<Task>)
    ensures |r| <= |tasks|
    ensures forall i :: 0 <= i < |r| ==> !HasId(r[i], id)
    ensures forall t :: t in r <==> t in tasks && !HasId(t, id)
  {
    FilterMembers(tasks, KeepsOtherIds(id));
    var r := Filter(tasks, KeepsOtherIds(id));
    assert forall t :: t in tasks && !HasId(t, id) ==> t in r by {
      forall t | t in tasks && !HasId(t, id) ensures t in r {
        var i :| 0 <= i < |tasks| && tasks[i] == t;
      }
    }
    r
  }

  /** Removal keeps the other tasks in their order. */
  lemma RemoveIdKeepsOrder(tasks: seq<Task>, id: int)
    ensures IsSubsequence(RemoveId(tasks, id), tasks)
  {
    FilterIsSubsequence(tasks, KeepsOtherIds(id));
  }

  /** Removing an id no task has changes nothing. */
  lemma RemoveAbsentId(tasks: seq<Task>, id: int)
    requires forall i :: 0 <= i < |tasks| ==> !HasId(tasks[i], id)
    ensures RemoveId(tasks, id) == tasks
  {
    FilterKeepsAll(tasks, KeepsOtherIds(id));
  }

  /** `{...task, ...data}` for the tasks with the id, the others as they are. */
  function MergeOne(t: Task, id: int, data: Obj): Task
  {
    if HasId(t, id) then Spread(t, data) else t
  }

  /** `tasks.map(task => task.id == id ? {...task, ...data} : task)`. */
  function MergeWhere(tasks: seq<Task>, id: int, data: Obj): (r: seq<Task>)
    ensures |r| == |tasks|
    ensures forall i :: 0 <= i < |tasks| && !HasId(tasks[i], id) ==> r[i] == tasks[i]
    ensures forall i :: 0 <= i < |tasks| && HasId(tasks[i], id) ==>
              r[i].Keys == tasks[i].Keys + data.Keys
              && (forall k :: k in data ==> r[i][k] == data[k])
              && (forall k :: k in tasks[i] && k !in data ==> r[i][k] == tasks[i][k])
  {
    if tasks == [] then []
    else [MergeOne(tasks[0], id, data)] + MergeWhere(tasks[1..], id, data)
  }

  /** Updating an id no task has changes nothing. */
  lemma {:induction false} MergeAbsentId(tasks: seq<Task>, id: int, data: Obj)
    requires forall i :: 0 <= i < |tasks| ==> !HasId(tasks[i], id)
    ensures MergeWhere(tasks, id, data) == tasks
  {
    if tasks != [] {
      MergeAbsentId(tasks[1..], id, data);
    }
  }

  /** Applying the same update twice is applying it once: a merged task
      that still has the id takes the same values again, and one whose id
      the data changed is left alone. */
  lemma {:induction false} MergeIdempotent(tasks: seq<Task>, id: int, data: Obj)
    ensures MergeWhere(MergeWhere(tasks, id, data), id, data) == MergeWhere(tasks, id, data)
  {
    if tasks != [] {
      MergeIdempotent(tasks[1..], id, data);
      var t := tasks[0];
      if HasId(t, id) {
        assert Spread(Spread(t, data), data) == Spread(t, data);
      }
    }
  }

  class TaskStore {
    var tasks: seq<Task>

    /** The provider starts with no tasks. */
    constructor ()
      ensures tasks == []
    {
      tasks := [];
    }

    /** The mount effect: the fetched list replaces the state. */
    method Load(data: seq<Task>)
      modifies this
      ensures tasks == data
    {
      tasks := data;
    }

    /** `createTask`: the task the server returns is appended; the earlier
      tasks are unchanged. */
    method CreateTask(created: Task)
      modifies this
      ensures tasks == old(tasks) + [created]
      ensures tasks[..|old(tasks)|] == old(tasks)
    {
      tasks := tasks + [created];
    }

    /** `deleteTask`: only a 202 response removes the tasks with the id. */
    method DeleteTask(id: int, status: int)
      modifies this
      ensures status == 202 ==> tasks == RemoveId(old(tasks), id)
      ensures status != 202 ==> tasks == old(tasks)
    {
      if status == 202 {
        tasks := RemoveId(tasks, id);
      }
    }

    /** `updateTask`: the response body is merged into the tasks with the
      id; the length and order are kept. */
    method UpdateTask(id: int, data: Obj)
      modifies this
      ensures tasks == MergeWhere(old(tasks), id, data)
    {
      tasks := MergeWhere(tasks, id, data);
    }
  }
}
