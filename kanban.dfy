/**
 * The Kanban board's task-list logic: the search/priority/date filter, the split of the
 * filtered list into status columns, the status change on drop, merging an updated task
 * by id, removing a deleted one, the priority-filter toggle and the add-task handler.
 * Tasks are matched by `String(id)`.
 */
module Kanban {
  import opened Wrappers
  import opened Js
  import Strings
  import Seqs
  import TasksApi
  import TaskEditDialog

  /**
   * An optional string property of a task in memory: the key is absent, holds null, or holds a string.
   * It is kept apart from `Js.Value` because a null in an update must overwrite in a spread while an
   * absent key must not; `FieldValue` maps it back to a `Js` value.
   */
  datatype Field = Absent | Nil | Text(s: string) {

    /** `f ?? d` */
    function Or(d: string): string {
      if Text? then s else d
    }

    /** `if (f)` */
    predicate Truthy() {
      Text? && s != ""
    }
  }

  /** A task as the board holds it; `id == None` is an absent id. */
  datatype Task = Task(id: Option<Value>, name: string, description: Field, dueDate: Field, priority: Field, status: Field)

  /** The priority filter's four states. */
  datatype PriorityFilter = AllPriorities | High | Medium | Low

  /** The toast the board shows: a message, an error one unless `isError` is false. */
  datatype Toast = Toast(message: string, isError: bool)

  /** What `handleAddTask` does with the dialog's object: refuse a blank name, or call `addTaskToDB` with `arg`. */
  datatype AddDecision = NameRequired | Submit(arg: Obj)

  /** The statuses of the board's three columns, left to right. */
  const ColumnStatuses: seq<string> := ["to-do", "in-progress", "completed"]

  /** `String(t.id)`: the key the board matches tasks by. */
  function Key(t: Task): string {
    ToString(t.id)
  }

  // ---------------------------------------------------------------- filtering

  /** The priority a filter state selects; `None` for 'all'. */
  function Label(p: PriorityFilter): Option<string> {
    match p
    case AllPriorities => None
    case High => Some("high")
    case Medium => Some("medium")
    case Low => Some("low")
  }

  /** `searchText.trim().toLowerCase()` */
  function Query(searchText: string): (q: string)
    ensures q == "" <==> Strings.IsBlank(searchText)
  {
    Strings.Lower(Strings.Trim(searchText))
  }

  /** The search part of the filter callback: the lowercased name or description contains `q`. */
  predicate MatchesQuery(t: Task, q: string) {
    Strings.Includes(Strings.Lower(t.name), q) || Strings.Includes(Strings.Lower(t.description.Or("")), q)
  }

  /** The filter callback, with the query already trimmed and lowercased. */
  predicate Keep(t: Task, q: string, p: PriorityFilter, date: string) {
    (p == AllPriorities || Some(t.priority.Or("medium")) == Label(p))
    && (date == "" || (t.dueDate.Truthy() && Strings.Before(t.dueDate.s, 'T') == date))
    && (q == "" || MatchesQuery(t, q))
  }

  function KeepFn(q: string, p: PriorityFilter, date: string): Task -> bool {
    t => Keep(t, q, p, date)
  }

  /** `filteredTasks`: the tasks the board shows for the search text, priority filter and date filter. */
  function FilterTasks(tasks: seq<Task>, searchText: string, p: PriorityFilter, date: string): (r: seq<Task>)
    ensures Seqs.IsSubsequence(r, tasks)
    ensures forall t :: t in r <==> t in tasks && Keep(t, Query(searchText), p, date)
    ensures forall t {:trigger multiset(r)[t]} :: multiset(r)[t] == if Keep(t, Query(searchText), p, date) then multiset(tasks)[t] else 0
    ensures p != AllPriorities ==> forall t :: t in r ==> Some(t.priority.Or("medium")) == Label(p)
    ensures date != "" ==> forall t :: t in r ==> t.dueDate.Text? && t.dueDate.s != "" && Strings.Before(t.dueDate.s, 'T') == date
    ensures Strings.IsBlank(searchText) && p == AllPriorities && date == "" ==> r == tasks
    ensures !Strings.IsBlank(searchText) && p == AllPriorities && date == "" ==>
              forall t :: t in r <==> t in tasks && MatchesQuery(t, Query(searchText))
  {
    KeptTasks(tasks, Query(searchText), p, date);
    Seqs.Filter(KeepFn(Query(searchText), p, date), tasks)
  }

  /** What filtering by `Keep` gives for any query `q`: the facts `FilterTasks` states with `q` the trimmed, lowercased search text. */
  lemma KeptTasks(tasks: seq<Task>, q: string, p: PriorityFilter, date: string)
    ensures var r := Seqs.Filter(KeepFn(q, p, date), tasks);
      && (p != AllPriorities ==> forall t :: t in r ==> Some(t.priority.Or("medium")) == Label(p))
      && (date != "" ==> forall t :: t in r ==> t.dueDate.Text? && t.dueDate.s != "" && Strings.Before(t.dueDate.s, 'T') == date)
      && (q == "" && p == AllPriorities && date == "" ==> r == tasks)
      && (q != "" && p == AllPriorities && date == "" ==> forall t :: t in r <==> t in tasks && MatchesQuery(t, q))
  {
    if q == "" && p == AllPriorities && date == "" {
      Seqs.FilterKeepsAll(KeepFn(q, p, date), tasks);
    }
  }

  // ------------------------------------------------------------- status split

  /** `t.status ?? 'to-do'` */
  function StatusOf(t: Task): string {
    t.status.Or("to-do")
  }

  function HasStatusFn(status: string): Task -> bool {
    t => StatusOf(t) == status
  }

  /** `byStatusFiltered(status)` over an already filtered list: the column showing `status`. */
  function Column(filtered: seq<Task>, status: string): (r: seq<Task>)
    ensures Seqs.IsSubsequence(r, filtered)
    ensures forall t :: t in r <==> t in filtered && StatusOf(t) == status
    ensures forall t {:trigger multiset(r)[t]} :: multiset(r)[t] == if StatusOf(t) == status then multiset(filtered)[t] else 0
  {
    Seqs.Filter(HasStatusFn(status), filtered)
  }

  /** A task without a status is shown in the 'to-do' column. */
  lemma MissingStatusShownAsToDo(filtered: seq<Task>, t: Task)
    requires t in filtered && (t.status.Absent? || t.status.Nil?)
    ensures t in Column(filtered, "to-do")
    ensures t !in Column(filtered, "in-progress") && t !in Column(filtered, "completed")
  {
  }

  /** A task whose status names a column is in that column and in no other. */
  lemma ExactlyOneColumn(filtered: seq<Task>, t: Task, c: string)
    requires t in filtered && StatusOf(t) in ColumnStatuses && c in ColumnStatuses
    ensures t in Column(filtered, c) <==> c == StatusOf(t)
  {
  }

  /** A task whose status names no column, such as 'todo', is in none of them. */
  lemma OffBoardStatus(filtered: seq<Task>, t: Task)
    requires StatusOf(t) !in ColumnStatuses
    ensures forall c :: c in ColumnStatuses ==> t !in Column(filtered, c)
  {
  }

  /** When every status names a column, the three columns together hold the whole filtered list. */
  lemma {:induction false} ColumnsPartition(filtered: seq<Task>)
    requires forall t :: t in filtered ==> StatusOf(t) in ColumnStatuses
    ensures |Column(filtered, "to-do")| + |Column(filtered, "in-progress")| + |Column(filtered, "completed")| == |filtered|
  {
    if filtered != [] {
      var rest := filtered[1..];
      ColumnsPartition(rest);
      ColumnStep(filtered, "to-do");
      ColumnStep(filtered, "in-progress");
      ColumnStep(filtered, "completed");
      ExactlyOneStatusMatches(StatusOf(filtered[0]));
    }
  }

  /** A column shows "No tasks" exactly when no filtered task has its status. */
  lemma EmptyColumn(filtered: seq<Task>, status: string)
    ensures Column(filtered, status) == [] <==> forall t :: t in filtered ==> StatusOf(t) != status
  {
    if forall t :: t in filtered ==> StatusOf(t) != status {
      Seqs.FilterKeepsNone(HasStatusFn(status), filtered);
    }
  }

  /** A status that names a column is exactly one of the three. */
  lemma ExactlyOneStatusMatches(status: string)
    requires status in ColumnStatuses
    ensures (if status == "to-do" then 1 else 0) + (if status == "in-progress" then 1 else 0)
            + (if status == "completed" then 1 else 0) == 1
  {
  }

  /** The first task of a list adds one to the length of its own column and nothing to the others. */
  lemma ColumnStep(filtered: seq<Task>, status: string)
    requires filtered != []
    ensures |Column(filtered, status)| == |Column(filtered[1..], status)| + if StatusOf(filtered[0]) == status then 1 else 0
  {
  }

  // --------------------------------------------------------------------- drop

  /** `onDropTo`: the task list after dropping the card whose id is `draggedId` on the column `target`. */
  function DropTo(tasks: seq<Task>, draggedId: string, target: Option<string>): (r: seq<Task>)
    ensures draggedId == "" ==> r == tasks
    ensures |r| == |tasks|
    ensures forall i :: 0 <= i < |tasks| ==> r[i].(status := tasks[i].status) == tasks[i]
    ensures forall i :: 0 <= i < |tasks| && Key(tasks[i]) != draggedId ==> r[i] == tasks[i]
    ensures draggedId != "" ==>
              forall i :: 0 <= i < |tasks| && Key(tasks[i]) == draggedId ==> r[i].status == Text(target.GetOr("to-do"))
  {
    if draggedId == "" then tasks
    else
      var status := Text(target.GetOr("to-do"));
      seq(|tasks|, i requires 0 <= i < |tasks| => if Key(tasks[i]) == draggedId then tasks[i].(status := status) else tasks[i])
  }

  /** After a drop on a column, the dragged tasks are listed in that column. */
  lemma DroppedTaskInTargetColumn(tasks: seq<Task>, draggedId: string, c: string, i: nat)
    requires draggedId != "" && i < |tasks| && Key(tasks[i]) == draggedId
    ensures tasks[i].(status := Text(c)) in Column(DropTo(tasks, draggedId, Some(c)), c)
  {
    var r := DropTo(tasks, draggedId, Some(c));
    assert r[i] == tasks[i].(status := Text(c));
  }

  /** A dropped card that passes the board's filters is listed in the filtered target column. */
  lemma DroppedVisibleTaskInColumn(tasks: seq<Task>, searchText: string, p: PriorityFilter, date: string,
                                   draggedId: string, c: string, i: nat)
    requires draggedId != "" && i < |tasks| && Key(tasks[i]) == draggedId
    requires Keep(tasks[i], Query(searchText), p, date)
    ensures tasks[i].(status := Text(c)) in Column(FilterTasks(DropTo(tasks, draggedId, Some(c)), searchText, p, date), c)
  {
    var r := DropTo(tasks, draggedId, Some(c));
    var t := tasks[i].(status := Text(c));
    assert r[i] == t;
    KeepIgnoresStatus(tasks[i], Text(c), Query(searchText), p, date);
    ShownInColumn(r, searchText, p, date, t, c);
  }

  /** A task that passes the filters is listed in the column of its status. */
  lemma ShownInColumn(tasks: seq<Task>, searchText: string, p: PriorityFilter, date: string, t: Task, c: string)
    requires t in tasks && Keep(t, Query(searchText), p, date) && StatusOf(t) == c
    ensures t in Column(FilterTasks(tasks, searchText, p, date), c)
  {
  }

  /** The filter callback never looks at a task's status. */
  lemma KeepIgnoresStatus(t: Task, status: Field, q: string, p: PriorityFilter, date: string)
    ensures Keep(t.(status := status), q, p, date) == Keep(t, q, p, date)
  {
    assert MatchesQuery(t.(status := status), q) == MatchesQuery(t, q);
  }

  /** Dropping the same card on the same column twice is the same as dropping it once. */
  lemma DropIdempotent(tasks: seq<Task>, draggedId: string, target: Option<string>)
    ensures DropTo(DropTo(tasks, draggedId, target), draggedId, target) == DropTo(tasks, draggedId, target)
  {
    var once := DropTo(tasks, draggedId, target);
    var twice := DropTo(once, draggedId, target);
    forall i | 0 <= i < |tasks|
      ensures twice[i] == once[i]
    {
      assert Key(once[i]) == Key(tasks[i]);
    }
  }

  // ------------------------------------------------------------ update/delete

  /** One property of `{...t, ...u}`: `u`'s value unless `u` lacks the key. */
  function Over(a: Field, b: Field): Field {
    if b.Absent? then a else b
  }

  /** `{...t, ...u}` */
  function Merge(t: Task, u: Task): Task {
    Task(if u.id.Some? then u.id else t.id, u.name, Over(t.description, u.description), Over(t.dueDate, u.dueDate),
         Over(t.priority, u.priority), Over(t.status, u.status))
  }

  /** The keys a task object can carry. */
  const TaskKeys: set<string> := {"id", "name", "description", "dueDate", "priority", "status"}

  /** A property as a plain-object value: none when absent. */
  function FieldValue(f: Field): Option<Value> {
    match f
    case Absent => None
    case Nil => Some(Value.Null)
    case Text(s) => Some(Str(s))
  }

  /** `t[k]`, or none when `t` has no key `k`. */
  function Prop(t: Task, k: string): Option<Value> {
    if k == "id" then t.id
    else if k == "name" then Some(Str(t.name))
    else if k == "description" then FieldValue(t.description)
    else if k == "dueDate" then FieldValue(t.dueDate)
    else if k == "priority" then FieldValue(t.priority)
    else if k == "status" then FieldValue(t.status)
    else None
  }

  /** The task as the plain object the board holds. */
  function AsObject(t: Task): Obj {
    map k | k in TaskKeys && Prop(t, k).Some? :: Prop(t, k).value
  }

  lemma MergeProp(t: Task, u: Task, k: string)
    ensures Prop(Merge(t, u), k) == if Prop(u, k).Some? then Prop(u, k) else Prop(t, k)
  {
  }

  /** `Merge` is object spread: as plain objects, merging `u` into `t` is `{...t, ...u}`. */
  lemma MergeIsSpread(t: Task, u: Task)
    ensures AsObject(Merge(t, u)) == Spread(AsObject(t), AsObject(u))
  {
    var m, s := AsObject(Merge(t, u)), Spread(AsObject(t), AsObject(u));
    forall k
      ensures k in m <==> k in s
      ensures k in m ==> m[k] == s[k]
    {
      MergeProp(t, u, k);
    }
  }

  /** `onCardUpdated`: the list after the card for `u` reports its saved version. */
  function UpdateById(tasks: seq<Task>, u: Task): (r: seq<Task>)
    ensures |r| == |tasks|
    ensures forall i :: 0 <= i < |tasks| && Key(tasks[i]) != Key(u) ==> r[i] == tasks[i]
    ensures forall i :: 0 <= i < |tasks| && Key(tasks[i]) == Key(u) ==> AsObject(r[i]) == Spread(AsObject(tasks[i]), AsObject(u))
    ensures forall i :: 0 <= i < |tasks| ==> Key(r[i]) == Key(tasks[i])
  {
    var r := seq(|tasks|, i requires 0 <= i < |tasks| => if Key(tasks[i]) == Key(u) then Merge(tasks[i], u) else tasks[i]);
    assert forall i :: 0 <= i < |tasks| && Key(tasks[i]) == Key(u) ==> AsObject(r[i]) == Spread(AsObject(tasks[i]), AsObject(u)) by {
      forall i | 0 <= i < |tasks| && Key(tasks[i]) == Key(u)
        ensures AsObject(r[i]) == Spread(AsObject(tasks[i]), AsObject(u))
      {
        MergeIsSpread(tasks[i], u);
      }
    }
    r
  }

  function KeyDiffersFn(key: string): Task -> bool {
    t => Key(t) != key
  }

  /** `onCardDeleted`: the list without the tasks whose key is `String(id)`. */
  function DeleteById(tasks: seq<Task>, id: Value): (r: seq<Task>)
    ensures Seqs.IsSubsequence(r, tasks)
    ensures forall t {:trigger t in r} :: t in r <==> t in tasks && Key(t) != ToString(Some(id))
    ensures forall t {:trigger multiset(r)[t]} :: multiset(r)[t] == if Key(t) != ToString(Some(id)) then multiset(tasks)[t] else 0
  {
    Seqs.Filter(KeyDiffersFn(ToString(Some(id))), tasks)
  }

  /** Deleting a task after updating it gives the same list as deleting it outright. */
  lemma {:induction false} DeleteAfterUpdate(tasks: seq<Task>, u: Task, id: Value)
    requires ToString(Some(id)) == Key(u)
    ensures DeleteById(UpdateById(tasks, u), id) == DeleteById(tasks, id)
  {
    if tasks != [] {
      assert UpdateById(tasks, u)[1..] == UpdateById(tasks[1..], u);
      DeleteAfterUpdate(tasks[1..], u, id);
    }
  }

  // ---------------------------------------------------------- priority toggle

  /** The priority button: all, high, medium, low, then all again. */
  function NextFilter(p: PriorityFilter): (r: PriorityFilter)
    ensures r != p
  {
    match p
    case AllPriorities => High
    case High => Medium
    case Medium => Low
    case Low => AllPriorities
  }

  /** The filter after `n` presses. */
  function Press(p: PriorityFilter, n: nat): PriorityFilter
    decreases n
  {
    if n == 0 then p else Press(NextFilter(p), n - 1)
  }

  /** From 'all', the button walks through 'high', 'medium' and 'low' in that order. */
  lemma PriorityOrder()
    ensures Press(AllPriorities, 1) == High
    ensures Press(AllPriorities, 2) == Medium
    ensures Press(AllPriorities, 3) == Low
  {
  }

  /** One to three presses move the filter to another state; the fourth brings it back. */
  lemma FourPressesCycle(p: PriorityFilter)
    ensures Press(p, 1) != p && Press(p, 2) != p && Press(p, 3) != p
    ensures Press(p, 4) == p
  {
    match p
    case AllPriorities =>
    case High =>
    case Medium =>
    case Low =>
  }

  lemma {:induction false} PressShift(p: PriorityFilter, n: nat)
    ensures Press(p, n + 4) == Press(p, n)
    decreases n
  {
    if n == 0 {
      FourPressesCycle(p);
    } else {
      PressShift(NextFilter(p), n - 1);
    }
  }

  /** Any number of presses is worth its remainder modulo four, and only multiples of four return to the start. */
  lemma {:induction false} PressPeriod(p: PriorityFilter, n: nat)
    ensures Press(p, n) == Press(p, n % 4)
    ensures Press(p, n) == p <==> n % 4 == 0
    decreases n
  {
    if n >= 4 {
      PressShift(p, n - 4);
      PressPeriod(p, n - 4);
    } else {
      FourPressesCycle(p);
    }
  }

  // ---------------------------------------------------------------- add task

  /** What the board's task type allows at `k`: a string, or (when `optional`) no value at all. */
  predicate StringAt(o: Obj, k: string, optional: bool) {
    if k in o then o[k].Str? else optional
  }

  /** The object literal `handleAddTask` passes to `addTaskToDB`, from the trimmed name and description. */
  function AddArgument(taskData: Obj, name: string, description: string): (arg: Obj)
    ensures {"name", "description", "status"} <= arg.Keys
    ensures arg.Keys <= {"name", "description", "status", "priority", "dueDate"}
    ensures arg["name"] == Str(name) && arg["description"] == Str(description)
    ensures arg["status"] == Coalesce(Get(taskData, "status"), Str("to-do"))
    ensures Get(arg, "priority") == Get(taskData, "priority")
    ensures Get(arg, "dueDate") == Get(taskData, "dueDate")
  {
    var arg := map["name" := Str(name), "description" := Str(description),
                   "status" := Coalesce(Get(taskData, "status"), Str("to-do"))];
    var withPriority := if "priority" in taskData then arg["priority" := taskData["priority"]] else arg;
    if "dueDate" in taskData then withPriority["dueDate" := taskData["dueDate"]] else withPriority
  }

  /** `handleAddTask`: refuses a blank name, else builds the argument for `addTaskToDB`. */
  function AddRequest(taskData: Obj): (d: AddDecision)
    requires StringAt(taskData, "name", false)
    requires StringAt(taskData, "description", true)
    ensures d == NameRequired <==> Strings.IsBlank(taskData["name"].s)
    ensures d.Submit? ==> {"name", "description", "status"} <= d.arg.Keys
    ensures d.Submit? ==> d.arg.Keys <= {"name", "description", "status", "priority", "dueDate"}
    ensures d.Submit? ==> d.arg["name"] == Str(Strings.Trim(taskData["name"].s))
    ensures d.Submit? ==>
              d.arg["description"] == Str(if "description" in taskData then Strings.Trim(taskData["description"].s) else "")
    ensures d.Submit? ==> d.arg["status"] == Coalesce(Get(taskData, "status"), Str("to-do"))
    ensures d.Submit? ==> Get(d.arg, "priority") == Get(taskData, "priority")
    ensures d.Submit? ==> Get(d.arg, "dueDate") == Get(taskData, "dueDate")
  {
    var name := Strings.Trim(taskData["name"].s);
    if name == "" then NameRequired
    else
      var description := if "description" in taskData then Strings.Trim(taskData["description"].s) else "";
      Submit(AddArgument(taskData, name, description))
  }

  /**
   * The add path end to end, from the dialog's payload `p` to the body `addTaskToDB` posts:
   * the name is the trimmed name and the status the dialog's, but whatever was typed as the
   * description, `desc` is empty (the dialog sends `desc`, the board reads `description`,
   * `addTaskToDB` reads `desc`).
   */
  lemma AddPathDropsDescription(f: TaskEditDialog.Fields, initialId: Option<Value>, p: Obj)
    requires TaskEditDialog.SavePayload(f, initialId) == Some(p)
    ensures StringAt(p, "name", false) && StringAt(p, "description", true)
    ensures AddRequest(p).Submit?
    ensures TasksApi.Payload(AddRequest(p).arg)["name"] == Str(Strings.Trim(f.name))
    ensures TasksApi.Payload(AddRequest(p).arg)["desc"] == Str("")
    ensures TasksApi.Payload(AddRequest(p).arg)["status"] == Str(f.status)
  {
    var name := Strings.Trim(f.name);
    DialogPayloadShape(f, initialId, p);
    SubmittedFromDialog(p, name, f.status);
    PostedFromArgument(AddRequest(p).arg);
  }

  /** The keys of the dialog's payload that `handleAddTask` reads. */
  lemma DialogPayloadShape(f: TaskEditDialog.Fields, initialId: Option<Value>, p: Obj)
    requires TaskEditDialog.SavePayload(f, initialId) == Some(p)
    ensures "name" in p && p["name"] == Str(Strings.Trim(f.name))
    ensures Strings.Trim(Strings.Trim(f.name)) == Strings.Trim(f.name) != ""
    ensures "description" !in p
    ensures Get(p, "status") == Some(Str(f.status))
  {
    var r := TaskEditDialog.SavePayload(f, initialId);
    assert r.Some? && r.value == p;
    assert p["name"] == Str(Strings.Trim(f.name)) && p["status"] == Str(f.status);
    DescriptionNotAPayloadKey(p.Keys);
    Strings.TrimIdempotent(f.name);
  }

  /** The dialog's payload keys do not include `description`. */
  lemma DescriptionNotAPayloadKey(keys: set<string>)
    requires keys <= {"id", "name", "desc", "status", "priority", "dueDate"}
    ensures "description" !in keys
  {
  }

  /** `handleAddTask` on an object with a trimmed, non-blank name, no `description` and a string status. */
  lemma SubmittedFromDialog(p: Obj, name: string, status: string)
    requires "name" in p && p["name"] == Str(name) && Strings.Trim(name) == name != ""
    requires "description" !in p
    requires Get(p, "status") == Some(Str(status))
    ensures StringAt(p, "name", false) && StringAt(p, "description", true)
    ensures AddRequest(p).Submit?
    ensures AddRequest(p).arg["name"] == Str(name) && AddRequest(p).arg["status"] == Str(status)
    ensures AddRequest(p).arg.Keys <= {"name", "description", "status", "priority", "dueDate"}
  {
    assert !Strings.IsBlank(name);
  }

  /** What `addTaskToDB` posts for an argument built by `handleAddTask`, which never has a `desc` key. */
  lemma PostedFromArgument(arg: Obj)
    requires "name" in arg && "status" in arg && arg["status"] != Value.Null
    requires arg.Keys <= {"name", "description", "status", "priority", "dueDate"}
    ensures TasksApi.Payload(arg)["name"] == arg["name"]
    ensures TasksApi.Payload(arg)["desc"] == Str("")
    ensures TasksApi.Payload(arg)["status"] == arg["status"]
  {
    assert "desc" !in arg;
  }

  /** A task stored with `addTaskToDB`'s default status 'todo' shows in none of the board's columns. */
  lemma ApiDefaultStatusOffBoard(filtered: seq<Task>, t: Task)
    requires t.status == Text("todo")
    ensures forall c :: c in ColumnStatuses ==> t !in Column(filtered, c)
  {
    OffBoardStatus(filtered, t);
  }

  // -------------------------------------------------------------- component

  /** The board component's state and its handlers. */
  class Board {
    var tasks: seq<Task>
    var searchText: string
    var filterPriority: PriorityFilter
    var filterDate: string
    var showAddDialog: bool
    var toast: Option<Toast>

    /** The `useState` initialisers. */
    constructor ()
      ensures tasks == [] && searchText == "" && filterPriority == AllPriorities && filterDate == ""
      ensures !showAddDialog && toast == None
    {
      tasks, searchText, filterPriority, filterDate := [], "", AllPriorities, "";
      showAddDialog, toast := false, None;
    }

    /** `filteredTasks` */
    function Visible(): seq<Task>
      reads this
    {
      FilterTasks(tasks, searchText, filterPriority, filterDate)
    }

    /** `byStatusFiltered(status)` */
    function ByStatusFiltered(status: string): seq<Task>
      reads this
    {
      Column(Visible(), status)
    }

    method SetSearchText(value: string)
      modifies this`searchText
      ensures searchText == value
    {
      searchText := value;
    }

    method SetFilterDate(value: string)
      modifies this`filterDate
      ensures filterDate == value
    {
      filterDate := value;
    }

    /** The priority filter button. */
    method TogglePriority()
      modifies this`filterPriority
      ensures filterPriority == NextFilter(old(filterPriority))
    {
      filterPriority := NextFilter(filterPriority);
    }

    /** `onDropTo(status, ev)` where the drag carried `draggedId`. */
    method OnDropTo(status: Option<string>, draggedId: string)
      modifies this`tasks
      ensures tasks == DropTo(old(tasks), draggedId, status)
      ensures draggedId != "" && status.Some? ==>
                forall i :: 0 <= i < |old(tasks)| && Key(old(tasks)[i]) == draggedId
                            && Keep(old(tasks)[i], Query(searchText), filterPriority, filterDate)
                            ==> tasks[i] in ByStatusFiltered(status.value)
    {
      if draggedId == "" {
        return;
      }
      ghost var before := tasks;
      tasks := DropTo(tasks, draggedId, status);
      if status.Some? {
        forall i | 0 <= i < |before| && Key(before[i]) == draggedId && Keep(before[i], Query(searchText), filterPriority, filterDate)
          ensures tasks[i] in ByStatusFiltered(status.value)
        {
          DroppedVisibleTaskInColumn(before, searchText, filterPriority, filterDate, draggedId, status.value, i);
        }
      }
    }

    method OnCardUpdated(updated: Task)
      modifies this`tasks
      ensures tasks == UpdateById(old(tasks), updated)
    {
      tasks := UpdateById(tasks, updated);
    }

    method OnCardDeleted(id: Value)
      modifies this`tasks
      ensures tasks == DeleteById(old(tasks), id)
    {
      tasks := DeleteById(tasks, id);
    }

    /**
     * `handleAddTask(taskData)`, given the server's reply to the add request. `fetches` says
     * whether `handleAddTask` itself calls `fetchTasks`; the dialog's `afterSave` call is
     * `TaskEditDialog.TaskForm.HandleSave`'s. Every error of `addTaskToDB` is caught, so the
     * handler never rejects. The toast's timed dismissal is not modelled.
     */
    method HandleAddTask(taskData: Obj, reply: TasksApi.HttpReply) returns (fetches: bool)
      requires StringAt(taskData, "name", false) && StringAt(taskData, "description", true)
      modifies this`showAddDialog, this`toast
      ensures AddRequest(taskData) == NameRequired ==>
                !fetches && toast == Some(Toast("Task name required", true)) && showAddDialog == old(showAddDialog)
      ensures AddRequest(taskData).Submit? ==>
                var result := TasksApi.AddTaskToDB(AddRequest(taskData).arg, reply);
                (fetches <==> result.Added?)
                && (result.Added? ==> !showAddDialog && toast == old(toast))
                && (result.AddFailed? ==> showAddDialog == old(showAddDialog) && toast == Some(Toast(result.message, true)))
    {
      var decision := AddRequest(taskData);
      if decision == NameRequired {
        toast := Some(Toast("Task name required", true));
        return false;
      }
      var result := TasksApi.AddTaskToDB(decision.arg, reply);
      if result.Added? {
        showAddDialog := false;
        fetches := true;
      } else {
        toast := Some(Toast(result.message, true));
        fetches := false;
      }
    }
  }
}
