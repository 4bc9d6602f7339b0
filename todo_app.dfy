/** The to-do service: five handlers over one `tasks` table whose `id` column is
    INTEGER PRIMARY KEY AUTOINCREMENT. The table is a map from id to row, and the
    AUTOINCREMENT sequence is the largest id ever handed out. */
module TodoApp {
  import opened Responses

  const TaskNotFound: string := "Task not found"
  const UpdateNotFound: string := "Task for update not found"
  const DeleteNotFound: string := "Task for delete not found"
  const DeletedStatus: string := "deleted"

  /** A row without its key, and the request body of POST and PUT. */
  datatype Task = Task(title: string, completed: bool)

  /** A row with its key: the JSON object {id, title, completed}. */
  datatype TaskRecord = TaskRecord(id: int, title: string, completed: bool)

  /** The body of a successful DELETE: {"status": "deleted", "id": id}. */
  datatype Deleted = Deleted(status: string, id: int)

  /** The table's rows, and the largest id it has ever assigned. */
  datatype Table = Table(rows: map<int, Task>, lastId: int)

  const EmptyTable: Table := Table(map[], 0)

  /** Ids start at 1 and never exceed the largest one ever assigned. */
  predicate WellFormed(t: Table) {
    0 <= t.lastId && forall id :: id in t.rows ==> 1 <= id <= t.lastId
  }

  function Record(id: int, task: Task): TaskRecord {
    TaskRecord(id, task.title, task.completed)
  }

  /** The body of POST /tasks and PUT /tasks/{id}: `completed` may be omitted. */
  function TaskBody(title: string, completed: Option<bool>): (t: Task)
    ensures t.title == title
    ensures completed.None? ==> !t.completed
    ensures completed.Some? ==> t.completed == completed.value
  {
    Task(title, if completed.Some? then completed.value else false)
  }

  /** create_task: the store picks an id above every id it ever handed out. */
  function Create(t: Table, task: Task): (r: (Table, TaskRecord))
    requires WellFormed(t)
    ensures WellFormed(r.0)
    ensures var id := r.1.id;
      id !in t.rows && t.lastId < id &&
      (forall k :: k in t.rows ==> k < id) &&
      r.0.lastId == id &&
      r.0.rows.Keys == t.rows.Keys + {id} && |r.0.rows| == |t.rows| + 1 &&
      r.0.rows[id] == task &&
      (forall k :: k in t.rows ==> r.0.rows[k] == t.rows[k])
    ensures r.1.title == task.title && r.1.completed == task.completed
  {
    var id := t.lastId + 1;
    (Table(t.rows[id := task], id), Record(id, task))
  }

  /** get_task: the row under `id`, or 404. */
  function Get(t: Table, id: int): (r: Response<TaskRecord>)
    ensures r.Ok? <==> id in t.rows
    ensures r.Ok? ==> r.value.id == id && Task(r.value.title, r.value.completed) == t.rows[id]
    ensures r.NotFound? ==> r.detail == TaskNotFound
  {
    if id in t.rows then Ok(Record(id, t.rows[id])) else NotFound(TaskNotFound)
  }

  /** update_task: replaces both fields of an existing row and echoes the input. */
  function Update(t: Table, id: int, task: Task): (r: (Table, Response<TaskRecord>))
    requires WellFormed(t)
    ensures WellFormed(r.0)
    ensures id !in t.rows ==> r.0 == t && r.1 == NotFound(UpdateNotFound)
    ensures id in t.rows ==>
      r.1 == Ok(TaskRecord(id, task.title, task.completed)) &&
      r.0.lastId == t.lastId &&
      r.0.rows.Keys == t.rows.Keys &&
      r.0.rows[id] == task &&
      (forall k :: k in t.rows && k != id ==> r.0.rows[k] == t.rows[k])
  {
    if id !in t.rows then (t, NotFound(UpdateNotFound))
    else (Table(t.rows[id := task], t.lastId), Ok(Record(id, task)))
  }

  /** delete_task: removes an existing row; the sequence is not wound back. */
  function Delete(t: Table, id: int): (r: (Table, Response<Deleted>))
    requires WellFormed(t)
    ensures WellFormed(r.0)
    ensures id !in t.rows ==> r.0 == t && r.1 == NotFound(DeleteNotFound)
    ensures id in t.rows ==>
      r.1 == Ok(Deleted("deleted", id)) &&
      r.0.lastId == t.lastId &&
      r.0.rows.Keys == t.rows.Keys - {id} &&
      (forall k :: k in r.0.rows ==> r.0.rows[k] == t.rows[k])
  {
    if id !in t.rows then (t, NotFound(DeleteNotFound))
    else (Table(t.rows - {id}, t.lastId), Ok(Deleted(DeletedStatus, id)))
  }

  /** A subsequent GET sees what PUT wrote. */
  lemma GetAfterUpdate(t: Table, id: int, task: Task)
    requires WellFormed(t) && id in t.rows
    ensures Get(Update(t, id, task).0, id) == Ok(TaskRecord(id, task.title, task.completed))
  {
  }

  /** A subsequent GET of a deleted id is a 404. */
  lemma GetAfterDelete(t: Table, id: int)
    requires WellFormed(t) && id in t.rows
    ensures Get(Delete(t, id).0, id) == NotFound(TaskNotFound)
  {
  }

  /** The requests that change the table (the two GET routes leave it alone). */
  datatype Request = CreateRequest(task: Task) | UpdateRequest(id: int, task: Task) | DeleteRequest(id: int)

  function Step(t: Table, req: Request): (r: Table)
    requires WellFormed(t)
    ensures WellFormed(r)
  {
    match req
    case CreateRequest(task) => Create(t, task).0
    case UpdateRequest(id, task) => Update(t, id, task).0
    case DeleteRequest(id) => Delete(t, id).0
  }

  /** The table after serving `reqs` in order. */
  function Run(t: Table, reqs: seq<Request>): (r: Table)
    requires WellFormed(t)
    ensures WellFormed(r)
    decreases |reqs|
  {
    if reqs == [] then t else Run(Step(t, reqs[0]), reqs[1..])
  }

  /** The ids that the creates among `reqs` hand out, in order. */
  function CreatedIds(t: Table, reqs: seq<Request>): seq<int>
    requires WellFormed(t)
    decreases |reqs|
  {
    if reqs == [] then []
    else
      var rest := CreatedIds(Step(t, reqs[0]), reqs[1..]);
      if reqs[0].CreateRequest? then [Create(t, reqs[0].task).1.id] + rest else rest
  }

  /** One request moves the sequence on by one if it is a create, and not at all otherwise. */
  lemma StepSequence(t: Table, req: Request)
    requires WellFormed(t)
    ensures req.CreateRequest? ==> Step(t, req).lastId == Create(t, req.task).1.id == t.lastId + 1
    ensures !req.CreateRequest? ==> Step(t, req).lastId == t.lastId
  {
  }

  /** Every id handed out during a run lies above the sequence before it and at or
      below the sequence after it; the sequence never goes down. */
  lemma {:induction false} CreatedIdsBounded(t: Table, reqs: seq<Request>)
    requires WellFormed(t)
    ensures t.lastId <= Run(t, reqs).lastId
    ensures forall i :: 0 <= i < |CreatedIds(t, reqs)| ==>
      t.lastId < CreatedIds(t, reqs)[i] <= Run(t, reqs).lastId
    decreases |reqs|
  {
    if reqs != [] {
      var t1 := Step(t, reqs[0]);
      StepSequence(t, reqs[0]);
      CreatedIdsBounded(t1, reqs[1..]);
      var rest := CreatedIds(t1, reqs[1..]);
      if reqs[0].CreateRequest? {
        assert CreatedIds(t, reqs) == [t1.lastId] + rest;
      } else {
        assert CreatedIds(t, reqs) == rest;
      }
    }
  }

  /** AUTOINCREMENT never reuses an id: over any run of requests, deletes included,
      the ids handed out rise strictly. */
  lemma {:induction false} CreatedIdsIncrease(t: Table, reqs: seq<Request>)
    requires WellFormed(t)
    ensures forall i, j :: 0 <= i < j < |CreatedIds(t, reqs)| ==>
      CreatedIds(t, reqs)[i] < CreatedIds(t, reqs)[j]
    decreases |reqs|
  {
    if reqs != [] {
      var t1 := Step(t, reqs[0]);
      StepSequence(t, reqs[0]);
      CreatedIdsIncrease(t1, reqs[1..]);
      CreatedIdsBounded(t1, reqs[1..]);
      var rest := CreatedIds(t1, reqs[1..]);
      if reqs[0].CreateRequest? {
        // the id this create hands out is t1's sequence, below every later one
        assert CreatedIds(t, reqs) == [t1.lastId] + rest;
      } else {
        assert CreatedIds(t, reqs) == rest;
      }
    }
  }

  /** No id handed out during a run names a row that existed before it. */
  lemma CreatedIdsAreFresh(t: Table, reqs: seq<Request>)
    requires WellFormed(t)
    ensures forall i :: 0 <= i < |CreatedIds(t, reqs)| ==> CreatedIds(t, reqs)[i] !in t.rows
  {
    CreatedIdsBounded(t, reqs);
  }

  /** The service process: the table held in place and changed by each handler. */
  class TodoServer {
    var rows: map<int, Task>
    var lastId: int

    function State(): Table
      reads this
    {
      Table(rows, lastId)
    }

    ghost predicate Valid()
      reads this
    {
      WellFormed(State())
    }

    /** A fresh database: no rows, nothing assigned yet. */
    constructor ()
      ensures Valid() && State() == EmptyTable
    {
      rows := map[];
      lastId := 0;
    }

    method CreateTask(task: Task) returns (r: TaskRecord)
      requires Valid()
      modifies this
      ensures Valid()
      ensures (State(), r) == Create(old(State()), task)
    {
      var id := lastId + 1;
      rows := rows[id := task];
      lastId := id;
      r := TaskRecord(id, task.title, task.completed);
    }

    /** get_all_tasks: every row, each once, scanned in id order. */
    method GetAllTasks() returns (r: seq<TaskRecord>)
      requires Valid()
      ensures forall i :: 0 <= i < |r| ==>
        r[i].id in rows && rows[r[i].id] == Task(r[i].title, r[i].completed)
      ensures forall id :: id in rows ==> exists i :: 0 <= i < |r| && r[i].id == id
      ensures forall i, j :: 0 <= i < j < |r| ==> r[i].id < r[j].id
    {
      r := [];
      var id := 1;
      while id <= lastId
        invariant 1 <= id <= lastId + 1
        invariant forall i :: 0 <= i < |r| ==>
          1 <= r[i].id < id && r[i].id in rows && rows[r[i].id] == Task(r[i].title, r[i].completed)
        invariant forall k :: k in rows && k < id ==> exists i :: 0 <= i < |r| && r[i].id == k
        invariant forall i, j :: 0 <= i < j < |r| ==> r[i].id < r[j].id
      {
        if id in rows {
          ghost var before := r;
          r := r + [Record(id, rows[id])];
          assert forall i :: 0 <= i < |before| ==> r[i] == before[i];
          assert r[|r| - 1].id == id;
        }
        id := id + 1;
      }
    }

    method GetTask(id: int) returns (r: Response<TaskRecord>)
      ensures r == Get(State(), id)
    {
      if id !in rows {
        return NotFound(TaskNotFound);
      }
      r := Ok(Record(id, rows[id]));
    }

    method UpdateTask(id: int, task: Task) returns (r: Response<TaskRecord>)
      requires Valid()
      modifies this
      ensures Valid()
      ensures (State(), r) == Update(old(State()), id, task)
    {
      if id !in rows {
        return NotFound(UpdateNotFound);
      }
      rows := rows[id := task];
      r := Ok(TaskRecord(id, task.title, task.completed));
    }

    method DeleteTask(id: int) returns (r: Response<Deleted>)
      requires Valid()
      modifies this
      ensures Valid()
      ensures (State(), r) == Delete(old(State()), id)
    {
      if id !in rows {
        return NotFound(DeleteNotFound);
      }
      rows := rows - {id};
      r := Ok(Deleted(DeletedStatus, id));
    }
  }
}
