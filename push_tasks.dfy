/**
 * The task push route: every task with a title becomes a page of the configured Notion database,
 * created one after the other; the first failed create ends the request with an error. The
 * database id comes from the server's environment and is a parameter here; `reply(k)` is Notion's
 * answer to the k-th create.
 */
module PushTasks {
  import opened Base
  import opened NotionApi

  /** One task of the request; a missing field (or a missing task) is "". */
  datatype Task = Task(title: string, dueDate: string, priority: string, category: string)

  /** The page properties of a task: its title as `Name`, and each other field as rich text when present. */
  function TaskProperties(t: Task): Properties {
    var p := map["Name" := TitleText(t.title)];
    var p := if t.dueDate != "" then p["Due Date" := RichText(t.dueDate)] else p;
    var p := if t.priority != "" then p["Priority" := RichText(t.priority)] else p;
    if t.category != "" then p["Category" := RichText(t.category)] else p
  }

  /** `Name` is always the title; `Due Date`, `Priority` and `Category` appear exactly when present. */
  lemma TaskPropertiesFields(t: Task)
    ensures var p := TaskProperties(t);
      && p.Keys <= {"Name", "Due Date", "Priority", "Category"}
      && "Name" in p && p["Name"] == TitleText(t.title)
      && ("Due Date" in p <==> t.dueDate != "") && ("Due Date" in p ==> p["Due Date"] == RichText(t.dueDate))
      && ("Priority" in p <==> t.priority != "") && ("Priority" in p ==> p["Priority"] == RichText(t.priority))
      && ("Category" in p <==> t.category != "") && ("Category" in p ==> p["Category"] == RichText(t.category))
  {
  }

  /** The create requests for `tasks`, in order: one per task with a title. */
  function TaskPlan(tasks: seq<Task>, databaseId: string): seq<Request> {
    if tasks == [] then []
    else
      (if tasks[0].title != "" then [CreatePage(databaseId, TaskProperties(tasks[0]))] else [])
      + TaskPlan(tasks[1..], databaseId)
  }

  /** The plan of the tasks from `i` on: the request of task `i`, if it has a title, then the rest. */
  lemma TaskPlanFrom(tasks: seq<Task>, i: nat, databaseId: string)
    requires i < |tasks|
    ensures tasks[i].title == "" ==> TaskPlan(tasks[i..], databaseId) == TaskPlan(tasks[i + 1..], databaseId)
    ensures tasks[i].title != "" ==>
      TaskPlan(tasks[i..], databaseId) == [CreatePage(databaseId, TaskProperties(tasks[i]))] + TaskPlan(tasks[i + 1..], databaseId)
  {
    assert tasks[i..][1..] == tasks[i + 1..];
    assert [] + TaskPlan(tasks[i + 1..], databaseId) == TaskPlan(tasks[i + 1..], databaseId);
  }

  /**
   * The plan holds one request per task with a title and nothing else: every request creates, in
   * the configured database, the page of some titled task, and every titled task has its request.
   */
  lemma {:induction false} TaskPlanRequests(tasks: seq<Task>, databaseId: string)
    ensures |TaskPlan(tasks, databaseId)| <= |tasks|
    ensures forall r :: r in TaskPlan(tasks, databaseId) <==>
      exists t :: t in tasks && t.title != "" && r == CreatePage(databaseId, TaskProperties(t))
  {
    if tasks != [] {
      TaskPlanRequests(tasks[1..], databaseId);
      var plan := TaskPlan(tasks, databaseId);
      var head := if tasks[0].title != "" then [CreatePage(databaseId, TaskProperties(tasks[0]))] else [];
      assert plan == head + TaskPlan(tasks[1..], databaseId);
      forall r | exists t :: t in tasks && t.title != "" && r == CreatePage(databaseId, TaskProperties(t))
        ensures r in plan
      {
        var t :| t in tasks && t.title != "" && r == CreatePage(databaseId, TaskProperties(t));
        if t != tasks[0] {
          assert t in tasks[1..];
        }
      }
    }
  }

  /** Tasks without titles produce no requests, so the push succeeds without writing anything. */
  lemma {:induction false} UntitledTasksWriteNothing(tasks: seq<Task>, databaseId: string)
    requires forall i :: 0 <= i < |tasks| ==> tasks[i].title == ""
    ensures TaskPlan(tasks, databaseId) == []
  {
    if tasks != [] {
      UntitledTasksWriteNothing(tasks[1..], databaseId);
    }
  }

  /**
   * The push succeeds exactly when Notion accepts every planned create; otherwise the requests sent
   * are the plan up to and including the first rejected one.
   */
  lemma PushSucceedsExactly(tasks: seq<Task>, databaseId: string, reply: nat -> CreateReply)
    ensures var plan := TaskPlan(tasks, databaseId); var s := SendAll(plan, reply, 0);
      && (s.failure.None? <==> forall j :: 0 <= j < |plan| ==> reply(j).Created?)
      && (s.failure.None? ==> s.sent == plan)
      && (s.failure.Some? ==>
            && 0 < |s.sent| <= |plan| && s.sent == plan[..|s.sent|]
            && reply(|s.sent| - 1).Rejected?
            && forall j :: 0 <= j < |s.sent| - 1 ==> reply(j).Created?)
  {
    SendAllOutcome(TaskPlan(tasks, databaseId), reply, 0);
  }

  /**
   * The route: 405 for anything but POST, 400 when `tasks` is not a non-empty array, both before any
   * create; otherwise the tasks are pushed in order, skipping those without a title, and the answer
   * is 200 when every create succeeded and 500 at the first that failed. `log` is the creates sent.
   */
  method HandlePushTasks(httpMethod: string, tasks: Listed<Task>, databaseId: string, reply: nat -> CreateReply)
    returns (r: Reply<()>, log: seq<Request>)
    ensures httpMethod != "POST" ==> r == Reply(405, ErrorBody("Method not allowed", None)) && log == []
    ensures httpMethod == "POST" && (tasks.NotAList? || tasks.items == []) ==>
      r == Reply(400, ErrorBody("Missing or invalid tasks array", None)) && log == []
    ensures httpMethod == "POST" && tasks.List? && tasks.items != [] ==>
      var s := SendAll(TaskPlan(tasks.items, databaseId), reply, 0);
      && log == s.sent
      && (s.failure.None? ==> r == Reply(200, OkBody("Tasks pushed to Notion", ())))
      && (s.failure.Some? ==> r == Reply(500, ErrorBody("Failed to push tasks to Notion", None)))
  {
    if httpMethod != "POST" {
      return Reply(405, ErrorBody("Method not allowed", None)), [];
    }
    if tasks.NotAList? || |tasks.items| == 0 {
      return Reply(400, ErrorBody("Missing or invalid tasks array", None)), [];
    }
    var failure;
    failure, log := PushAll(tasks.items, databaseId, reply);
    if failure.Some? {
      return Reply(500, ErrorBody("Failed to push tasks to Notion", None)), log;
    }
    return Reply(200, OkBody("Tasks pushed to Notion", ())), log;
  }

  /**
   * One turn of the route's loop: a task without a title is skipped; the create of a task with one
   * either ends the run with its rejection or leaves the run pending on the tasks after it.
   */
  lemma PushStep(items: seq<Task>, i: nat, databaseId: string, plan: seq<Request>, log: seq<Request>,
                 reply: nat -> CreateReply)
    requires i < |items| && Pending([], plan, log, TaskPlan(items[i..], databaseId), reply)
    ensures items[i].title == "" ==> Pending([], plan, log, TaskPlan(items[i + 1..], databaseId), reply)
    ensures items[i].title != "" ==>
      var next := log + [CreatePage(databaseId, TaskProperties(items[i]))];
      && (reply(|log|).Rejected? ==>
            next == SendAll(plan, reply, 0).sent && SendAll(plan, reply, 0).failure == Some(reply(|log|).message))
      && (reply(|log|).Created? ==> Pending([], plan, next, TaskPlan(items[i + 1..], databaseId), reply))
  {
    TaskPlanFrom(items, i, databaseId);
    if items[i].title != "" {
      AdvanceOne([], plan, log, CreatePage(databaseId, TaskProperties(items[i])), TaskPlan(items[i + 1..], databaseId), reply);
      EmptyAppend(SendAll(plan, reply, 0).sent);
    }
  }

  /**
   * The route's loop: each task with a title is created in turn, those without one are skipped,
   * and the first rejected create ends the loop with its message.
   */
  method PushAll(items: seq<Task>, databaseId: string, reply: nat -> CreateReply)
    returns (failure: Option<string>, log: seq<Request>)
    ensures log == SendAll(TaskPlan(items, databaseId), reply, 0).sent
    ensures failure == SendAll(TaskPlan(items, databaseId), reply, 0).failure
  {
    ghost var plan := TaskPlan(items, databaseId);
    log := [];
    var i := 0;
    assert items[0..] == items;
    PendingStart(log, plan, reply);
    while i < |items|
      invariant 0 <= i <= |items|
      invariant Pending([], plan, log, TaskPlan(items[i..], databaseId), reply)
    {
      var task := items[i];
      PushStep(items, i, databaseId, plan, log, reply);
      if task.title == "" {
        i := i + 1;
        continue;
      }
      var request := CreatePage(databaseId, TaskProperties(task));
      var answer := reply(|log|);
      log := log + [request];
      if answer.Rejected? {
        return Some(answer.message), log;
      }
      i := i + 1;
    }
    PendingDone([], plan, log, reply);
    EmptyAppend(SendAll(plan, reply, 0).sent);
    return None, log;
  }
}
