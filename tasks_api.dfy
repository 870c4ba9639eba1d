/**
 * `addTaskToDB` from the front end's task API: the JSON payload it builds from the
 * task it is given, and how the server's reply turns into data or an error.
 */
module TasksApi {
  import opened Wrappers
  import opened Js
  import Strings

  /** What `res.json()` makes of a reply's body: a JSON value, or the error it rejects with. */
  datatype Body = Json(value: Value) | NotJson(error: string)

  /** What the add-task endpoint answered: an HTTP reply, or a rejected `fetch`. */
  datatype HttpReply = Reply(ok: bool, status: int, body: Body) | NetworkFailure(message: string)

  /** The promise of `addTaskToDB`: resolves with the reply's data, or rejects with a message. */
  datatype AddResult = Added(data: Value) | AddFailed(message: string)

  /** The body `addTaskToDB` posts for `task`. */
  function Payload(task: Obj): (p: Obj)
    ensures p.Keys <= {"name", "desc", "status", "priority", "dueDate"}
    ensures "desc" in p && "status" in p
    ensures "name" in p <==> "name" in task
    ensures "priority" in p <==> Truthy(Get(task, "priority"))
    ensures "dueDate" in p <==> Truthy(Get(task, "dueDate"))
    ensures "name" in task ==> p["name"] == task["name"]
    ensures p["desc"] == (if "desc" in task && task["desc"] != Null then task["desc"] else Str(""))
    ensures p["status"] == (if "status" in task && task["status"] != Null then task["status"] else Str("todo"))
    ensures "priority" in p ==> p["priority"] == task["priority"]
    ensures "dueDate" in p ==> p["dueDate"] == task["dueDate"]
  {
    var required := map["desc" := Coalesce(Get(task, "desc"), Str("")), "status" := Coalesce(Get(task, "status"), Str("todo"))];
    var withName := if "name" in task then required["name" := task["name"]] else required;
    var withPriority := if Truthy(Get(task, "priority")) then withName["priority" := task["priority"]] else withName;
    if Truthy(Get(task, "dueDate")) then withPriority["dueDate" := task["dueDate"]] else withPriority
  }

  /** `addTaskToDB(task)`, given what the server answered to the posted `Payload(task)`. */
  function AddTaskToDB(task: Obj, reply: HttpReply): (r: AddResult)
    ensures r.Added? <==> reply.Reply? && reply.ok && reply.body.Json?
    ensures r.Added? ==> r.data == reply.body.value
    ensures reply.Reply? && !reply.ok ==> r == AddFailed("Failed to add task: " + Strings.IntToString(reply.status))
    ensures reply.Reply? && reply.ok && reply.body.NotJson? ==> r == AddFailed(reply.body.error)
    ensures reply.NetworkFailure? ==> r == AddFailed(reply.message)
  {
    match reply
    case NetworkFailure(m) => AddFailed(m)
    case Reply(ok, status, body) =>
      if !ok then AddFailed("Failed to add task: " + Strings.IntToString(status))
      else
        match body
        case Json(data) => Added(data)
        case NotJson(e) => AddFailed(e)
  }

  /** Whatever the task holds under `description`, the payload's `desc` comes from `desc` alone. */
  lemma DescriptionKeyIgnored(task: Obj, text: Value)
    requires "desc" !in task
    ensures Payload(task["description" := text])["desc"] == Str("")
  {
  }

  /** A task without a status is posted with `status: 'todo'`. */
  lemma MissingStatusPostedAsTodo(task: Obj)
    requires "status" !in task
    ensures Payload(task)["status"] == Str("todo")
  {
  }
}
