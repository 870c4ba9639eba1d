# Aerchain task board and speech-to-task endpoint, in Dafny

This project models the core of Aerchain, a task manager with a Kanban board and a
voice-to-task feature:

- the board (`Front-End/src/components/Kanban.tsx`): the search, priority and due-date
  filter over the task list, the split into the three status columns, the drop of a card
  on a column, the update and delete callbacks of a card, the priority-filter button and
  the add-task handler;
- the task edit dialog (`Front-End/src/components/TaskEditDialog.tsx`): the form fields,
  their reset from the task being edited, and the save handler that builds the payload;
- `addTaskToDB` (`Front-End/src/lib/tasksApi.ts`): the body it posts and how it reads the
  server's answer;
- the server's `POST /stt` handler (`Back-End/index.js`): the configuration and input
  checks, the AssemblyAI upload, the transcription job and its poll loop, and the task
  details taken from Gemini's reply. Those details are the first single-level `{...}` of the
  reply, parsed and spread over fixed defaults.

Modules:

- `Wrappers` holds `Option`.
- `Strings` holds JavaScript's `trim`, ASCII `toLowerCase`, `includes`, `split(sep)[0]`
  and integer formatting.
- `Seqs` holds `Array.prototype.filter`, with the result a subsequence of its input.
- `Js` holds flat JSON values, objects as maps, truthiness, `??`, `String(v)` and object
  spread.
- `TasksApi`, `TaskEditDialog`, `Kanban` and `Stt` model the four source files.

Components are modelled this way:

- Component state that the source updates through `setX` calls is a class:
  `TaskEditDialog.TaskForm` and `Kanban.Board`.
- Each handler is a method that reassigns the fields it sets.
- What a handler computes is a function with its own contract and lemmas.

The `/stt` handler reads its environment and makes network calls. It is modelled as a
method that takes these as inputs:

- the two keys;
- the uploaded buffer;
- what each provider call returned or threw;
- the finite run of status responses the poll loop reads;
- `JSON.parse` as a partial function.

It returns the response and the list of outbound calls, in order.

Among the properties the model proves:

- The filtered list is a subsequence of the tasks, and it is all of them when no filter is set.
- Each task whose status names a column is in exactly one column, and the three columns
  together hold the filtered list.
- A drop changes only the dropped card's status, and dropping twice is dropping once.
- A card update merges the saved task as `{...t, ...u}`.
- Deleting after updating is deleting.
- The priority button cycles with period four.
- The reset and save payloads of the dialog, down to each key.
- The response of `/stt` in every branch, including the first terminal poll.
- The `{...}` extraction finds the leftmost match of `/\{[^{}]*\}/`.

`handleAddTask` catches every error of `addTaskToDB` (Front-End/src/components/Kanban.tsx:148-151),
so it never rejects. The add dialog is wired with `afterSave={fetchTasks}`
(Front-End/src/components/Kanban.tsx:266-271), and the dialog calls `afterSave` once `onSave`
has resolved (Front-End/src/components/TaskEditDialog.tsx:61-62). So the list is reloaded
after every save with a non-blank name, failed adds included, and twice after a successful
one: once by `handleAddTask` and once by the dialog.

The add path loses what is typed as the description. The dialog sends it under `desc`.
The board reads `description`, finds nothing and passes `description: ''`. `addTaskToDB`
reads `desc` and posts `desc: ''`. `Kanban.AddPathDropsDescription` proves this for every
dialog state. `Kanban.ApiDefaultStatusOffBoard` records a second mismatch: `addTaskToDB`'s
own default status `'todo'` is shown in none of the board's columns.

The handler's default task details are `taskName`, `status`, `deadline` and `priority`
(Back-End/index.js:88-93); there is no description default (`Stt.Defaults`). The Gemini
key is checked only after the poll loop has completed (Back-End/index.js:73-74), so a
missing key still costs the upload, the job and its polls.

## Model

| member | source | states |
|---|---|---|
| Strings.Trim | Front-End/src/components/Kanban.tsx:60 | `trim()`: the input is a blank prefix, then the result, then a blank suffix; the result is empty exactly when the input is all whitespace and otherwise has no whitespace at either end |
| Strings.TrimIdempotent | Front-End/src/components/TaskEditDialog.tsx:55 | trimming a trimmed name again changes nothing |
| Strings.Lower | Front-End/src/components/Kanban.tsx:72-73 | `toLowerCase()` keeps the length, lowers each ASCII capital at its own position and leaves every other character as it was |
| Strings.IncludesIsInfix | Front-End/src/components/Kanban.tsx:72-73 | `s.includes(q)` holds exactly when `s` splits into a part, then `q`, then a part (so the empty query is in every string) |
| Strings.IntToString | Front-End/src/lib/tasksApi.ts:18 | `${n}` for an integer: non-empty, a leading '-' exactly for negatives followed by the digits of the magnitude, and for a non-negative integer its digit string `Digits(n)`, digits only (with `DigitsAreDecimal`: `${n}` is the decimal numeral of `n`, so a 404 status is written '404') |
| Strings.DigitsAreDecimal | Front-End/src/lib/tasksApi.ts:18 | the digit string of `n` read left to right as a decimal numeral is `n`, with no leading zero except for 0 itself |
| Strings.IntToStringInjective | Front-End/src/components/Kanban.tsx:87 | different integers are written as different strings |
| Strings.Before | Front-End/src/components/Kanban.tsx:67 | `split('T')[0]`: a prefix of the input without the separator, followed by the separator or the end |
| Seqs.Filter | Front-End/src/components/Kanban.tsx:61 | `filter`: an order-preserving subsequence holding every copy of each element the callback accepts and no copy of any other |
| Seqs.FilterKeepsAll | Front-End/src/components/Kanban.tsx:70 | a callback that accepts everything returns the list unchanged |
| Seqs.FilterKeepsNone | Front-End/src/components/Kanban.tsx:78 | a callback that accepts nothing returns the empty list |
| Kanban.EmptyColumn | Front-End/src/components/Kanban.tsx:224-225 | a column shows "No tasks" exactly when no filtered task has its status |
| Js.FalsyValues | Front-End/src/lib/tasksApi.ts:8-9 | `if (v)`: every value is truthy except undefined, null, false, 0 and '' (also used at Front-End/src/components/TaskEditDialog.tsx:54,59 and Back-End/index.js:23,44,54) |
| Js.ToString | Front-End/src/components/Kanban.tsx:127 | `String(v)`: 'undefined' for undefined, 'null' for null, a string as itself, an integer as its decimal text (digits only when it is not negative) |
| Js.NumberMatchesItsText | Front-End/src/components/Kanban.tsx:123 | a numeric id and the string of its digits have the same `String(id)`, so the board matches them |
| Js.DistinctNumbersDistinctKeys | Front-End/src/components/Kanban.tsx:87 | two different numeric ids never have the same `String(id)` |
| Js.Get | Front-End/src/lib/tasksApi.ts:4-6 | reading a key gives the stored value, or undefined exactly when the key is absent |
| Js.Coalesce | Front-End/src/lib/tasksApi.ts:5-6 | `v ?? d` is `d` exactly when `v` is undefined or null |
| Js.Spread | Back-End/index.js:99 | `{...a, ...b}` has the keys of both, `b`'s value wins on shared keys |
| TasksApi.Payload | Front-End/src/lib/tasksApi.ts:3-10 | the posted body: `name` iff given, `desc` and `status` always (defaulting to '' and 'todo' for undefined or null), `priority`/`dueDate` exactly when truthy, with the given values, nothing else |
| TasksApi.AddTaskToDB | Front-End/src/lib/tasksApi.ts:13-20 | resolves with the parsed body exactly when the reply is ok and its body is JSON; a non-ok reply rejects with 'Failed to add task: ' and the status, an ok reply whose body does not parse with the parse error, a failed fetch with its own message |
| TasksApi.DescriptionKeyIgnored | Front-End/src/lib/tasksApi.ts:5 | a `description` key never reaches the body: without `desc` the body's `desc` is '' |
| TasksApi.MissingStatusPostedAsTodo | Front-End/src/lib/tasksApi.ts:6 | a task without a status is posted with 'todo' |
| TaskEditDialog.OrElse | Front-End/src/components/TaskEditDialog.tsx:43-47 | `x \|\| d` is `x` when it is a non-empty string and `d` otherwise |
| TaskEditDialog.ResetFields | Front-End/src/components/TaskEditDialog.tsx:32-47 | without a task the form is empty with 'to-do', 'medium' and no date; with one, each field takes the task's value, empty strings and missing values falling back to the same defaults, and an empty due date is undefined |
| TaskEditDialog.SavedObject | Front-End/src/components/TaskEditDialog.tsx:53-60 | the payload literal: name, `desc`, status and priority always, `id` exactly when the initial id is truthy, `dueDate` exactly when set, no other key |
| TaskEditDialog.SavePayload | Front-End/src/components/TaskEditDialog.tsx:51-60 | nothing is saved iff the name is blank; otherwise the payload has the trimmed name and description (under `desc`), the status and priority, `id` exactly when the initial id is truthy and `dueDate` exactly when it is non-empty, and no other key |
| TaskEditDialog.SaveOutcome | Front-End/src/components/TaskEditDialog.tsx:52-54 | for the dialog's fields and initial task, nothing is saved exactly when the name is blank, and the payload has an `id` exactly when the initial task has a truthy id |
| TaskEditDialog.TaskForm.constructor | Front-End/src/components/TaskEditDialog.tsx:32-36 | the form starts in the reset state for the initial task |
| TaskEditDialog.TaskForm.Reset | Front-End/src/components/TaskEditDialog.tsx:39-49 | an open dialog resets every field from the task; a closed one changes nothing |
| TaskEditDialog.TaskForm.SetName | Front-End/src/components/TaskEditDialog.tsx:83 | the name becomes the input's value, nothing else changes |
| TaskEditDialog.TaskForm.SetDescription | Front-End/src/components/TaskEditDialog.tsx:93 | the description becomes the input's value, nothing else changes |
| TaskEditDialog.TaskForm.SetStatus | Front-End/src/components/TaskEditDialog.tsx:104 | the status becomes the selected value, nothing else changes |
| TaskEditDialog.TaskForm.SetPriority | Front-End/src/components/TaskEditDialog.tsx:117 | the priority becomes the selected value, nothing else changes |
| TaskEditDialog.TaskForm.SetDueDate | Front-End/src/components/TaskEditDialog.tsx:131 | the due date becomes the input's value, or undefined when it is cleared; nothing else changes |
| TaskEditDialog.TaskForm.HandleSave | Front-End/src/components/TaskEditDialog.tsx:51-63 | a blank name makes no call; otherwise `onSave` gets the save payload, and `afterSave` follows exactly when `onSave` resolved and `afterSave` is a function; the payload has an `id` exactly when the initial task has a truthy id; the handler rejects exactly when `onSave` rejects |
| Kanban.Query | Front-End/src/components/Kanban.tsx:60 | the query is empty exactly when the search text is blank |
| Kanban.FilterTasks | Front-End/src/components/Kanban.tsx:59-76 | `filteredTasks` is an order-preserving subsequence holding exactly the tasks that pass the priority (missing priority read as 'medium'), date (date part before 'T') and search (name or description contains the query) tests, with every copy of a kept task and none of the others; no filter returns every task |
| Kanban.Column | Front-End/src/components/Kanban.tsx:78 | `byStatusFiltered(s)` keeps, in order, every copy of each filtered task whose status (missing read as 'to-do') is `s`, and nothing else |
| Kanban.MissingStatusShownAsToDo | Front-End/src/components/Kanban.tsx:78 | a task without a status is in the 'to-do' column and in neither other column |
| Kanban.ExactlyOneColumn | Front-End/src/components/Kanban.tsx:223-251 | a task whose status names a column appears in that column and in no other |
| Kanban.OffBoardStatus | Front-End/src/components/Kanban.tsx:223-251 | a task whose status names no column is shown in none |
| Kanban.ColumnsPartition | Front-End/src/components/Kanban.tsx:223-251 | when every status names a column, the three columns' lengths add up to the filtered list's |
| Kanban.DropTo | Front-End/src/components/Kanban.tsx:83-89 | an empty dragged id changes nothing; otherwise the list keeps its length and order, only the status of the cards whose `String(id)` is the dragged id changes, to the column's status or 'to-do' |
| Kanban.DroppedTaskInTargetColumn | Front-End/src/components/Kanban.tsx:86-89 | after a drop on a column the dragged card is listed in that column |
| Kanban.DroppedVisibleTaskInColumn | Front-End/src/components/Kanban.tsx:59-89 | after a drop on a column, a dragged card that passes the search, priority and date filters is listed in that column's filtered list |
| Kanban.KeepIgnoresStatus | Front-End/src/components/Kanban.tsx:61-75 | the filter callback gives the same answer whatever the task's status |
| Kanban.ShownInColumn | Front-End/src/components/Kanban.tsx:59-78 | a task that passes the search, priority and date filters is in `byStatusFiltered` of its status |
| Kanban.DropIdempotent | Front-End/src/components/Kanban.tsx:87 | dropping the same card on the same column twice equals dropping it once |
| Kanban.MergeProp | Front-End/src/components/Kanban.tsx:123 | each property of the merged task is the update's when present, else the original's |
| Kanban.MergeIsSpread | Front-End/src/components/Kanban.tsx:123 | the merged task, as a plain object, is `{...t, ...updated}` |
| Kanban.UpdateById | Front-End/src/components/Kanban.tsx:122-124 | `onCardUpdated`: same length, tasks with another key unchanged, matching tasks replaced by the spread of the update over them, keys unchanged |
| Kanban.DeleteById | Front-End/src/components/Kanban.tsx:126-128 | `onCardDeleted` keeps, in order, every copy of each task whose `String(id)` differs from `String(id)` of the deleted one, and nothing else |
| Kanban.DeleteAfterUpdate | Front-End/src/components/Kanban.tsx:122-128 | deleting a task after updating it gives the same list as deleting it outright |
| Kanban.NextFilter | Front-End/src/components/Kanban.tsx:184 | each press moves the priority filter to a different state |
| Kanban.FourPressesCycle | Front-End/src/components/Kanban.tsx:184 | one to three presses leave the start state, the fourth returns to it |
| Kanban.PressShift | Front-End/src/components/Kanban.tsx:184 | four more presses change nothing |
| Kanban.PriorityOrder | Front-End/src/components/Kanban.tsx:184 | from 'all' the presses go to 'high', then 'medium', then 'low' |
| Kanban.PressPeriod | Front-End/src/components/Kanban.tsx:184 | n presses equal n mod 4 presses, and return to the start exactly when n is a multiple of 4 |
| Kanban.AddArgument | Front-End/src/components/Kanban.tsx:139-145 | the object passed to `addTaskToDB`: the given name and description, status defaulting to 'to-do', priority and due date as given, no other key |
| Kanban.AddRequest | Front-End/src/components/Kanban.tsx:131-145 | a blank name is refused; otherwise the argument carries the trimmed name, the trimmed description or '', the status or 'to-do', and the priority and due date as given |
| Kanban.AddPathDropsDescription | Front-End/src/components/Kanban.tsx:139-145 | from any dialog payload, the body `addTaskToDB` posts has the trimmed name and the dialog's status, but `desc` is always '' |
| Kanban.PostedFromArgument | Front-End/src/lib/tasksApi.ts:3-6 | for the board's argument, which has no `desc` key, the posted body keeps the name and status and has `desc: ''` |
| Kanban.ApiDefaultStatusOffBoard | Front-End/src/lib/tasksApi.ts:6 | a task stored with the API's default status 'todo' is shown in no column |
| Kanban.Board.constructor | Front-End/src/components/Kanban.tsx:52-57 | the board starts with no tasks, no search, all priorities, no date, the add dialog closed and no toast |
| Kanban.Board.SetSearchText | Front-End/src/components/Kanban.tsx:169 | the search text becomes the input's value |
| Kanban.Board.SetFilterDate | Front-End/src/components/Kanban.tsx:178 | the date filter becomes the input's value |
| Kanban.Board.TogglePriority | Front-End/src/components/Kanban.tsx:184 | the priority filter moves to its next state |
| Kanban.Board.OnDropTo | Front-End/src/components/Kanban.tsx:80-89 | the task list becomes the list after the drop; a dropped card that passes the board's filters then appears in `byStatusFiltered` of the target column |
| Kanban.Board.OnCardUpdated | Front-End/src/components/Kanban.tsx:122-124 | the task list becomes the list after the update |
| Kanban.Board.OnCardDeleted | Front-End/src/components/Kanban.tsx:126-128 | the task list becomes the list after the delete |
| Kanban.Board.HandleAddTask | Front-End/src/components/Kanban.tsx:131-152 | a blank name shows 'Task name required' and `handleAddTask` makes no `fetchTasks` call of its own; otherwise a successful add closes the dialog and calls `fetchTasks`, and a failed one shows the error message as an error toast and does not call it |
| Stt.UploadUrl | Back-End/index.js:43 | the upload URL is `upload_url` when truthy, else `url` |
| Stt.UploadedUrl | Back-End/index.js:43-44 | there is an upload URL exactly when the upload returned and its `upload_url`, else `url`, is truthy, and it is that value |
| Stt.JobId | Back-End/index.js:53-54 | there is a job id exactly when the job creation returned and its `id` is truthy, and it is that value |
| Stt.FirstTerminal | Back-End/index.js:58-70 | the index of the first poll that completed, failed or threw, with every earlier poll still pending |
| Stt.PollUntilTerminal | Back-End/index.js:58-70 | the loop stops at the first response that completed, failed or threw (none when the responses run out) and has made one status request per response read |
| Stt.PollCalls | Back-End/index.js:60-62 | n polls make n status requests for the job's id |
| Stt.NextBrace | Back-End/index.js:97 | the next `{` or `}` at or after a position, with no brace before it |
| Stt.MatchesAtIsRegex | Back-End/index.js:97 | `/\{[^{}]*\}/` matches at position i exactly when `s[i]` is `{` and the next brace after it is `}`, and the match ends there |
| Stt.FirstMatchFrom | Back-End/index.js:97 | the first position at or after `from` where the pattern matches, none before it |
| Stt.FirstObjectText | Back-End/index.js:97 | `jsonMatch[0]` starts with `{`, ends with `}`, has no brace inside and occurs in the reply |
| Stt.FirstObjectIsLeftmostMatch | Back-End/index.js:97 | no match exactly when the pattern matches nowhere; otherwise the match is the leftmost one |
| Stt.EmbeddedObjectFound | Back-End/index.js:97 | a brace-free prefix followed by a single-level object: the match is that object |
| Stt.LeftmostFrom | Back-End/index.js:97 | a match with no match before it is the one found |
| Stt.TaskDetails | Back-End/index.js:88-103 | the defaults' keys are always present; a reply that cannot be read, matched or parsed gives the defaults; otherwise the parsed keys win over the defaults and the other defaults stay |
| Stt.NoObjectGivesDefaults | Back-End/index.js:95-103 | a reply without any single-level object gives exactly the defaults |
| Stt.HighPriorityInProse | Back-End/index.js:88-100 | `{"priority":"high"}` after brace-free prose sets priority to 'high' and keeps every other default |
| Stt.HandleStt | Back-End/index.js:20-110 | missing AssemblyAI key gives 500 and no call; no file gives 400 and no call; a thrown upload, job or poll gives 500 'Internal server error' with its details; no upload URL or no job id gives its own 500; polls continue until the first terminal status, an 'error' status gives 500 with the job's error; after completion a missing Gemini key gives 500, else Gemini is called once with the transcript and a reply gives 200 with text, id and task details |

## Left out

- Network and process I/O: `fetch`, `axios`, the Gemini SDK and `process.env` are inputs. Neither request headers nor URLs are modelled. The `/stt` handler records each call by what it sends: the uploaded audio buffer, the `audio_url` of the job request, the job id of each poll, and the transcript embedded in the Gemini prompt. The rest of the prompt text is not modelled.
- Stt.HandleStt: the poll loop in the source never stops while the job stays pending. The model reads a finite list of status responses and answers `Waiting` when the list runs out. The one-second sleep between polls is not modelled.
- Stt.HandleStt: the prompt sent to Gemini is reduced to the transcript text it embeds. The model name is not modelled.
- `JSON.parse` is the parameter `parse`. Parsed values are flat: no floats, arrays or nested objects.
- Strings.Lower: only ASCII letters are lowered. Unicode case mapping is not modelled.
- Ids and numbers are integers, so `String(n)` for a non-integer number is not modelled.
- Strings.IntToString: integers are unbounded and always written in full decimal. JavaScript writes numbers of 1e21 and above in exponent form ('1e+21'), and integers beyond 2^53 are not held exactly; neither is captured.
- Kanban: a task on the board carries only the keys of its declared type. Extra keys sent by the server are not modelled. Its name is always a string.
- Kanban.AddRequest: the name and description must be strings or, for the description, absent, as the type declares. A null description, which the source maps to '', is not modelled.
- `fetchTasks` (Front-End/src/components/Kanban.tsx:29-44) is not modelled beyond the `fetches` flag of `Kanban.Board.HandleAddTask`. It is a network read that replaces the list, with its loading and error state.
- The `PATCH` request sent after a drop (Front-End/src/components/Kanban.tsx:91-103) is not modelled. It is a network write whose failure is only logged.
- Toast dismissal timers, the drag-over highlight (`dragOverStatus`), the recorder popup, the list/kanban view switch and the `window.__kanbanAfterSave` hook are display-only or global wiring, so they are not modelled.
- The dialog's reset runs in a zero-delay timeout in the source. The model applies it at once.
- Console logging, Express, CORS, multer's 50 MB limit and the server start-up are not modelled.
- KanbanCard, Dialog, Toast, App, main, Audiorecorder and the seed script are not part of this model.
