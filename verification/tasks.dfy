/** The tasks contract: every user owns a list of tasks. A task's id is a fresh random token
    and its timestamp is the wall clock in milliseconds, both fixed once when the task is
    added and stored as they are. */
module TasksContract {
  import opened Panics
  import opened LazyStore
  import opened Clock

  /** One task record. */
  datatype Task = Task(id: string, text: string, categoryId: string, timestamp: U64)

  /** What one `add_task` call receives: the caller's fields, plus the clock reading and the
      random token the call draws from its environment. */
  datatype TaskRequest = TaskRequest(text: string, categoryId: string, now: SystemTime, uuid: string)

  /** The contract state: each user's tasks. */
  datatype Tasks = Tasks(values: Store<Task>)

  /** `Default::default` refuses to build a state. */
  function Default(): (r: Result<Tasks>)
    ensures r.Panic? && r.message == NotInitialized
  {
    Panic(NotInitialized)
  }

  /** `get_tasks`: the user's tasks in insertion order, or none for a user without an entry.
      Nothing is inserted for a missing user. */
  function GetTasks(t: Tasks, userId: Owner): (r: seq<Task>)
    ensures userId !in t.values ==> r == []
    ensures userId in t.values ==> r == t.values[userId]
  {
    List(t.values, userId)
  }

  /** `generate_task_fields`: the task built from the caller's fields, the token as its id and
      the clock reading in milliseconds since the epoch as its timestamp; a panic when the
      clock reads before the epoch or the milliseconds overflow a u64. */
  function GenerateTaskFields(req: TaskRequest): (r: Result<Task>)
    ensures TotalNanos(req.now) < 0 ==> r.Panic? && TimeWentBackwards + ": " <= r.message
    ensures r.Ok? <==> TotalNanos(req.now) >= 0 && MathMillis(Duration(req.now.secs, req.now.nanos)) <= U64_MAX
    ensures r.Ok? ==>
      && r.value.id == req.uuid
      && r.value.text == req.text
      && r.value.categoryId == req.categoryId
      && r.value.timestamp / MILLIS_PER_SEC == req.now.secs
      && r.value.timestamp % MILLIS_PER_SEC == req.now.nanos / NANOS_PER_MILLI
  {
    var sinceTheEpoch :- SinceEpoch(req.now);
    var timestamp :- Millis(sinceTheEpoch);
    Ok(Task(req.uuid, req.text, req.categoryId, timestamp))
  }

  /** `add_task` as ensure-then-append: unless the task fields panic, the user's list grows by
      exactly the generated task at its end, and no other user's list changes. A panic
      reverts the call, including the creation of the user's entry. */
  function AddTask(t: Tasks, userId: Owner, req: TaskRequest): (r: Result<Tasks>)
    ensures r.Ok? <==> GenerateTaskFields(req).Ok?
    ensures r.Panic? ==> r.message == GenerateTaskFields(req).message
    ensures r.Ok? ==> userId in r.value.values
    ensures r.Ok? ==> GetTasks(r.value, userId) == GetTasks(t, userId) + [GenerateTaskFields(req).value]
    ensures r.Ok? ==> OnlyOwnerChanged(t.values, r.value.values, userId)
  {
    var task :- GenerateTaskFields(req);
    Ok(Tasks(Append(t.values, userId, task)))
  }

  /** `add_task` as the source writes it: on a missing entry, store an empty collection and
      call itself again; the second call finds the entry, so there is exactly one retry, and
      the outcome is the ensure-then-append one. */
  method AddTaskRetrying(t: Tasks, userId: Owner, req: TaskRequest) returns (r: Result<Tasks>, retries: nat)
    ensures r == AddTask(t, userId, req)
    ensures retries == if userId in t.values then 0 else 1
    decreases if userId in t.values then 0 else 1
  {
    if userId in t.values {
      var v := t.values[userId];
      var task := GenerateTaskFields(req);
      if task.Panic? {
        return Panic(task.message), 0;
      }
      v := v + [task.value];
      r := Ok(Tasks(t.values[userId := v]));
      retries := 0;
    } else {
      var baseVector: seq<Task> := [];
      var created := Tasks(t.values[userId := baseVector]);
      var inner;
      r, inner := AddTaskRetrying(created, userId, req);
      retries := inner + 1;
    }
  }

  /** The task a later `get_tasks` returns is the one generated at append time: its id is the
      token and its timestamp the clock reading of that call, not values drawn again. */
  lemma StoredAsGenerated(t: Tasks, userId: Owner, req: TaskRequest)
    requires AddTask(t, userId, req).Ok?
    ensures var after := GetTasks(AddTask(t, userId, req).value, userId);
      && |after| > 0
      && after[|after| - 1].id == req.uuid
      && after[|after| - 1].timestamp / MILLIS_PER_SEC == req.now.secs
      && after[|after| - 1].timestamp % MILLIS_PER_SEC == req.now.nanos / NANOS_PER_MILLI
  {
  }

  /** A run of `add_task` calls for one user, in order; the first panic aborts the run. */
  function AddAll(t: Tasks, userId: Owner, reqs: seq<TaskRequest>): Result<Tasks>
    decreases |reqs|
  {
    if reqs == [] then Ok(t)
    else
      var mid :- AddAll(t, userId, reqs[..|reqs| - 1]);
      AddTask(mid, userId, reqs[|reqs| - 1])
  }

  /** The tasks a run of additions generates, in call order; the first panic aborts it. */
  function Generated(reqs: seq<TaskRequest>): Result<seq<Task>>
    decreases |reqs|
  {
    if reqs == [] then Ok([])
    else
      var init :- Generated(reqs[..|reqs| - 1]);
      var task :- GenerateTaskFields(reqs[|reqs| - 1]);
      Ok(init + [task])
  }

  /** A run generates its tasks exactly when every request's fields can be generated, and the
      k-th task is the one generated from the k-th request. */
  lemma {:induction false} GeneratedContents(reqs: seq<TaskRequest>)
    ensures Generated(reqs).Ok? <==> forall k :: 0 <= k < |reqs| ==> GenerateTaskFields(reqs[k]).Ok?
    ensures Generated(reqs).Ok? ==>
      && |Generated(reqs).value| == |reqs|
      && forall k :: 0 <= k < |reqs| ==> GenerateTaskFields(reqs[k]) == Ok(Generated(reqs).value[k])
    decreases |reqs|
  {
    if reqs != [] {
      var init := reqs[..|reqs| - 1];
      GeneratedContents(init);
      assert forall k :: 0 <= k < |init| ==> init[k] == reqs[k];
    }
  }

  /** A run of additions succeeds exactly when its tasks can be generated, and then the user's
      list is the old list followed by those tasks, in call order. */
  lemma {:induction false} AddAllAppends(t: Tasks, userId: Owner, reqs: seq<TaskRequest>)
    ensures AddAll(t, userId, reqs).Ok? <==> Generated(reqs).Ok?
    ensures AddAll(t, userId, reqs).Ok? ==>
      GetTasks(AddAll(t, userId, reqs).value, userId) == GetTasks(t, userId) + Generated(reqs).value
    decreases |reqs|
  {
    if reqs != [] {
      AddAllAppends(t, userId, reqs[..|reqs| - 1]);
    }
  }

  /** A successful run of additions for one user leaves every other user's list as it was. */
  lemma {:induction false} AddAllOnlyUser(t: Tasks, userId: Owner, reqs: seq<TaskRequest>)
    requires AddAll(t, userId, reqs).Ok?
    ensures OnlyOwnerChanged(t.values, AddAll(t, userId, reqs).value.values, userId)
    decreases |reqs|
  {
    if reqs != [] {
      AddAllOnlyUser(t, userId, reqs[..|reqs| - 1]);
    }
  }
}
