/**
 * The task edit dialog: five form fields that a reset fills from the task being
 * edited (or from defaults), input handlers that replace one field each, and the
 * save handler that turns the fields into the object passed to `onSave`.
 */
module TaskEditDialog {
  import opened Wrappers
  import opened Js
  import Strings

  /** The `initialTask` prop; a `None` field is undefined or null. */
  datatype InitialTask = InitialTask(
    id: Option<Value>,
    name: Option<string>,
    desc: Option<string>,
    status: Option<string>,
    priority: Option<string>,
    dueDate: Option<string>)

  /** The form state; `dueDate == None` is the undefined due date. */
  datatype Fields = Fields(name: string, description: string, status: string, priority: string, dueDate: Option<string>)

  /** What the dialog does when saving: calls `onSave` with a payload, then `afterSave`. */
  datatype Event = OnSave(payload: Obj) | AfterSave

  /** `x || d` for a string that may be undefined. */
  function OrElse(x: Option<string>, d: string): (r: string)
    ensures x.Some? && x.value != "" ==> r == x.value
    ensures x.None? || x.value == "" ==> r == d
  {
    if x.Some? && x.value != "" then x.value else d
  }

  /** The form fields after a reset from `initial` (also the state the dialog starts in). */
  function ResetFields(initial: Option<InitialTask>): (f: Fields)
    ensures initial.None? ==> f == Fields("", "", "to-do", "medium", None)
    ensures f.status != "" && f.priority != ""
    ensures f.dueDate.Some? ==> f.dueDate.value != ""
    ensures initial.Some? && initial.value.name.Some? ==> f.name == initial.value.name.value
    ensures initial.Some? && initial.value.desc.Some? ==> f.description == initial.value.desc.value
    ensures initial.Some? && initial.value.name.None? ==> f.name == ""
    ensures initial.Some? && initial.value.desc.None? ==> f.description == ""
    ensures initial.Some? && initial.value.status.Some? && initial.value.status.value != "" ==>
              f.status == initial.value.status.value
    ensures (initial.None? || initial.value.status.None? || initial.value.status.value == "") ==> f.status == "to-do"
    ensures initial.Some? && initial.value.priority.Some? && initial.value.priority.value != "" ==>
              f.priority == initial.value.priority.value
    ensures (initial.None? || initial.value.priority.None? || initial.value.priority.value == "") ==> f.priority == "medium"
    ensures f.dueDate.Some? <==> initial.Some? && initial.value.dueDate.Some? && initial.value.dueDate.value != ""
    ensures f.dueDate.Some? ==> f.dueDate == initial.value.dueDate
  {
    var t := initial.GetOr(InitialTask(None, None, None, None, None, None));
    var due := OrElse(t.dueDate, "");
    Fields(OrElse(t.name, ""), OrElse(t.desc, ""), OrElse(t.status, "to-do"), OrElse(t.priority, "medium"),
           if due != "" then Some(due) else None)
  }

  /** `initialTask?.id` */
  function IdOf(initial: Option<InitialTask>): Option<Value> {
    if initial.Some? then initial.value.id else None
  }

  /** The object literal of `handleSave`, from the already trimmed name and description. */
  function SavedObject(name: string, description: string, f: Fields, initialId: Option<Value>): (o: Obj)
    ensures {"name", "desc", "status", "priority"} <= o.Keys
    ensures o.Keys <= {"id", "name", "desc", "status", "priority", "dueDate"}
    ensures o["name"] == Str(name) && o["desc"] == Str(description)
    ensures o["status"] == Str(f.status) && o["priority"] == Str(f.priority)
    ensures "id" in o <==> Truthy(initialId)
    ensures "id" in o ==> Some(o["id"]) == initialId
    ensures "dueDate" in o <==> f.dueDate.Some? && f.dueDate.value != ""
    ensures "dueDate" in o ==> o["dueDate"] == Str(f.dueDate.value)
  {
    var fields := map["name" := Str(name), "desc" := Str(description), "status" := Str(f.status), "priority" := Str(f.priority)];
    var withId := if Truthy(initialId) then fields["id" := initialId.value] else fields;
    if f.dueDate.Some? && f.dueDate.value != "" then withId["dueDate" := Str(f.dueDate.value)] else withId
  }

  /** The payload `handleSave` passes to `onSave`, or `None` when the name is blank and nothing is saved. */
  function SavePayload(f: Fields, initialId: Option<Value>): (r: Option<Obj>)
    ensures r.None? <==> Strings.IsBlank(f.name)
    ensures r.Some? ==> {"name", "desc", "status", "priority"} <= r.value.Keys
    ensures r.Some? ==> r.value.Keys <= {"id", "name", "desc", "status", "priority", "dueDate"}
    ensures r.Some? ==> r.value["name"] == Str(Strings.Trim(f.name)) && Strings.Trim(f.name) != ""
    ensures r.Some? ==> r.value["desc"] == Str(Strings.Trim(f.description))
    ensures r.Some? ==> r.value["status"] == Str(f.status) && r.value["priority"] == Str(f.priority)
    ensures r.Some? ==> ("id" in r.value <==> Truthy(initialId))
    ensures r.Some? && "id" in r.value ==> Some(r.value["id"]) == initialId
    ensures r.Some? ==> ("dueDate" in r.value <==> f.dueDate.Some? && f.dueDate.value != "")
    ensures r.Some? && "dueDate" in r.value ==> r.value["dueDate"] == Str(f.dueDate.value)
  {
    var name := Strings.Trim(f.name);
    if name == "" then None else Some(SavedObject(name, Strings.Trim(f.description), f, initialId))
  }

  /** The payload is missing exactly for a blank name, and carries an `id` exactly when the dialog was opened on a task with a truthy id. */
  lemma SaveOutcome(f: Fields, initial: Option<InitialTask>)
    ensures SavePayload(f, IdOf(initial)).None? <==> Strings.IsBlank(f.name)
    ensures SavePayload(f, IdOf(initial)).Some? ==>
              ("id" in SavePayload(f, IdOf(initial)).value <==> initial.Some? && Truthy(initial.value.id))
  {
  }

  /** The dialog's form state. */
  class TaskForm {
    var name: string
    var description: string
    var status: string
    var priority: string
    var dueDate: Option<string>

    function Current(): Fields
      reads this
    {
      Fields(name, description, status, priority, dueDate)
    }

    /** The `useState` initialisers. */
    constructor (initial: Option<InitialTask>)
      ensures Current() == ResetFields(initial)
    {
      var f := ResetFields(initial);
      name, description, status, priority, dueDate := f.name, f.description, f.status, f.priority, f.dueDate;
    }

    /** The reset effect: does nothing while the dialog is closed. */
    method Reset(open: bool, initial: Option<InitialTask>)
      modifies this
      ensures Current() == if open then ResetFields(initial) else old(Current())
    {
      if !open {
        return;
      }
      var f := ResetFields(initial);
      name, description, status, priority, dueDate := f.name, f.description, f.status, f.priority, f.dueDate;
    }

    method SetName(value: string)
      modifies this
      ensures Current() == old(Current()).(name := value)
    {
      name := value;
    }

    method SetDescription(value: string)
      modifies this
      ensures Current() == old(Current()).(description := value)
    {
      description := value;
    }

    method SetStatus(value: string)
      modifies this
      ensures Current() == old(Current()).(status := value)
    {
      status := value;
    }

    method SetPriority(value: string)
      modifies this
      ensures Current() == old(Current()).(priority := value)
    {
      priority := value;
    }

    /** The date input: clearing it makes the due date undefined. */
    method SetDueDate(value: string)
      modifies this
      ensures Current() == old(Current()).(dueDate := if value == "" then None else Some(value))
    {
      dueDate := if value == "" then None else Some(value);
    }

    /**
     * `handleSave`: `saveCompletes` says whether the promise `onSave` returns resolves,
     * `afterSaveIsFunction` whether an `afterSave` prop was passed. Returns the calls made,
     * in order, and whether `handleSave` itself rejects.
     */
    method HandleSave(initial: Option<InitialTask>, saveCompletes: bool, afterSaveIsFunction: bool)
      returns (events: seq<Event>, rejected: bool)
      ensures Strings.IsBlank(name) ==> events == [] && !rejected
      ensures !Strings.IsBlank(name) ==> 1 <= |events| <= 2 && events[0] == OnSave(SavePayload(Current(), IdOf(initial)).value)
      ensures !Strings.IsBlank(name) ==> ("id" in events[0].payload <==> initial.Some? && Truthy(initial.value.id))
      ensures |events| == 2 <==> !Strings.IsBlank(name) && saveCompletes && afterSaveIsFunction
      ensures |events| == 2 ==> events[1] == AfterSave
      ensures rejected <==> !Strings.IsBlank(name) && !saveCompletes
    {
      SaveOutcome(Current(), initial);
      var payload := SavePayload(Current(), IdOf(initial));
      if payload.None? {
        return [], false;
      }
      var save := OnSave(payload.value);
      if !saveCompletes {
        return [save], true;
      }
      events := if afterSaveIsFunction then [save, AfterSave] else [save];
      rejected := false;
    }
  }
}
