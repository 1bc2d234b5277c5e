# Smart verification console: a Dafny model

This project models the sequential logic of a small data-verification task
console. The console has two halves:

- a Python backend that keeps verification tasks in an in-memory dictionary
  and serves them over HTTP;
- a React frontend. Users filter the task list, pick a tenant from a
  cascading tree selector, start an analysis per task, and edit a task in a
  drawer.

The model covers five pieces:

- **Backend task store** (`db.dfy`, module `Db`). A class `TaskStore` holds
  the dictionary as its keys in insertion order (`keys`) plus their contents
  (`store`). It models:
  - the list query, as the chain of optional filtering stages the code
    runs, proved equal to one conjunctive predicate `Matches`;
  - lookup;
  - creation under a supplied id;
  - the partial update, a loop that skips null values;
  - the four-state analyze machine.
- **Query building** (`api.dfy`, module `Api`):
  - the loop of `fetchTasks` that appends every truthy filter entry to the
    query string;
  - the rule that a non-ok response is a failure.
- **Filter panel** (`filter_section.dfy`, module `FilterSection`):
  - the cascading tenant selector (selection path, option levels and tenant
    field) as a class `FilterPanel`;
  - its tree walk as a method with a loop and an early `break`;
  - the search handler that turns the "all" sentinel into "no constraint".
- **Analyze bookkeeping** (`task_table.dfy`, module `TaskTable`):
  - the badge colour of a status;
  - the set of task ids with an analysis in flight, which disables their
    buttons.
- **Edit drawer** (`task_edit.dfy`, module `TaskEdit`):
  - the working copy;
  - single-field edits;
  - the outcome of a submit.

`types.dfy` (module `Types`) holds the shared records: `TaskStatus` with its
Chinese wire labels, `TenantNode`, `Task` and `TaskCreate`. `sequences.dfy`
(module `Sequences`) holds helpers: order-preserving subsequences, distinct
elements, ASCII lower-casing and substring containment.

The tree walk is modelled as the code runs it. Level 0 of the tenant
selector offers the root node itself. The walk, however, matches the first
path entry against the root's *children*. So picking the root resolves
nothing, and with the tree the backend ships no second level is ever offered
(`FilterSection.ShippedRootSelection`).

On a small tree with root "root"/Acme and children "t1"/TeamA and
"t2"/TeamB, selecting "root" at level 0 also resolves nothing and leaves one
level, so no level-1 dropdown ever renders (`FilterSection.AcmeSelections`).

## Model

| member | source | states |
|---|---|---|
| Api.EntriesCover | smart-verification-frontend/src/api/index.ts:17 | the entries of a filter object hold each of its eight properties under its own parameter name with its value, undefined ones included, and no name twice |
| Api.BuildParams | smart-verification-frontend/src/api/index.ts:15-21 | the `forEach` loop builds exactly the query `Query` describes: the truthy entries, in order, with their values |
| Api.QueryMember | smart-verification-frontend/src/api/index.ts:17-21 | a (key, value) pair is in the query iff the entries hold that key with that value and the value is non-empty; undefined and empty values never reach the query |
| Api.QueryKeysInOrder | smart-verification-frontend/src/api/index.ts:17-21 | the query's keys are an order-preserving subsequence of the entries' keys |
| Api.QueryEmpty | smart-verification-frontend/src/api/index.ts:15-23 | an empty or all-undefined/empty filter gives an empty query |
| Api.FilterQueryKeys | smart-verification-frontend/src/api/index.ts:17-21 | for a filter object every key occurs at most once in the query, in declaration order |
| Api.FilterQueryMember | smart-verification-frontend/src/api/index.ts:17-21 | a filter field reaches the query under its own name and verbatim iff it is defined and non-empty |
| Api.FetchTasksResult | smart-verification-frontend/src/api/index.ts:25-29 | a non-ok response is a failure with "Failed to fetch tasks" and never a task list; an ok one yields its body |
| FilterSection.FindChild | smart-verification-frontend/src/components/FilterSection.tsx:66 | `find` returns the first child with the id, and nothing iff no child has it |
| FilterSection.ResolveFromNothing | smart-verification-frontend/src/components/FilterSection.tsx:63-68 | once a step has missed, later entries cannot revive the walk; a missing tree resolves nothing and does not fail |
| FilterSection.ResolveSnoc | smart-verification-frontend/src/components/FilterSection.tsx:64-66 | a path one entry longer resolves by one more child lookup from where the shorter path led |
| FilterSection.ResolveSplit | smart-verification-frontend/src/components/FilterSection.tsx:63-68 | resolving a concatenated path resolves the first part, then the second from there |
| FilterSection.ResolveMissIsFinal | smart-verification-frontend/src/components/FilterSection.tsx:63-68 | if any prefix of the path resolves to nothing, the whole path does |
| FilterSection.ResolvedNode | smart-verification-frontend/src/components/FilterSection.tsx:63-68 | a successful resolution ends at a node whose id is the last path entry, and every prefix resolved too |
| FilterSection.Walk | smart-verification-frontend/src/components/FilterSection.tsx:63-68 | the loop with its early `break` computes exactly `Resolve(root, path)`, matching each entry among the children of the node before |
| FilterSection.SelectPath | smart-verification-frontend/src/components/FilterSection.tsx:60 | the new path is the old one cut to `level` entries with `nodeId` appended: length `min(level, old length) + 1`, earlier entries unchanged |
| FilterSection.NextOptions | smart-verification-frontend/src/components/FilterSection.tsx:70-76 | a resolved node with children keeps levels `0..level` and puts its children at `level + 1`, giving `level + 2` levels; otherwise the levels are cut to an unchanged prefix of `level + 1` |
| FilterSection.NormaliseFields | smart-verification-frontend/src/components/FilterSection.tsx:84-93 | only status and script type drop the literal "all"; every other field, an owner "all" included, passes verbatim |
| FilterSection.SearchQuery | smart-verification-frontend/src/components/FilterSection.tsx:83-93 | a search sends a parameter iff its form field is non-empty and, for status and script type, not "all"; the value is sent verbatim |
| FilterSection.FilterPanel.constructor | smart-verification-frontend/src/components/FilterSection.tsx:20-33 | the panel starts with no tree, no selection, no option level and every form field undefined |
| FilterSection.FilterPanel.LoadHierarchy | smart-verification-frontend/src/components/FilterSection.tsx:44-50 | a loaded tree makes the level-0 options exactly `[root]` |
| FilterSection.FilterPanel.SetInput | smart-verification-frontend/src/components/FilterSection.tsx:101-192 | an input or dropdown sets exactly its own form field and nothing else |
| FilterSection.FilterPanel.SelectAtLevel | smart-verification-frontend/src/components/FilterSection.tsx:59-81 | the path, option levels and tenant field after a selection, in terms of `SelectPath`, `Resolve` and `NextOptions`: the tenant becomes the resolved node's name (never its id), or keeps its old value when the walk fails; the invariant that level 0 is `[root]` is kept |
| FilterSection.ShippedRootSelection | smart-verification-frontend/src/components/FilterSection.tsx:48-68 | with the shipped tree, selecting the root at level 0 leaves one level and the tenant field unset |
| FilterSection.AcmeSelections | smart-verification-frontend/src/components/FilterSection.tsx:59-81 | on the root/Acme tree, selecting "root" leaves one level and no tenant; selecting "t1" at level 0 sets "TeamA" and keeps one level |
| FilterSection.SearchExample | smart-verification-frontend/src/components/FilterSection.tsx:83-93 | a search with status "all", owner "bob" and script type "all" sends only `owner=bob` |
| Db.CriteriaSplit | smart-verification-backend/app/db.py:103-120 | the chain of stages accepts a task iff each optional stage on its own does |
| Db.CriteriaMeanMatches | smart-verification-backend/app/db.py:105-120 | the stages the list query runs keep a task iff it matches field by field: status equal; tenant in the tenant path; owner, id and unique name contain the text ignoring case; rule id and rule unique name present and containing it; script type present and equal |
| Db.UnconstrainedRunsNoStage | smart-verification-backend/app/db.py:103-122 | no stage runs iff every parameter is absent or empty |
| Db.KeepThenKeepAll | smart-verification-backend/app/db.py:105-120 | one stage followed by the others keeps what one pass under all of them keeps |
| Db.StagesAreConjunction | smart-verification-backend/app/db.py:103-122 | the chain of reassigned list comprehensions equals one conjunctive filter over the tasks |
| Db.KeepAllIsSubsequence | smart-verification-backend/app/db.py:103-122 | the filtered list is an order-preserving subsequence of the input |
| Db.KeepAllMembers | smart-verification-backend/app/db.py:103-122 | a task is in the filtered list iff it is in the input and passes every stage |
| Db.InOrderListsStore | smart-verification-backend/app/db.py:103 | under the store invariant, `list(tasks.values())` holds every stored task, nothing else, and no id twice |
| Db.TaskDeterminedByFields | smart-verification-backend/app/db.py:137-146 | a task is determined by its id together with its ten fields |
| Db.SetField | smart-verification-backend/app/db.py:142 | assigning one key sets that field to the value and leaves every other field and the id as they were |
| Db.Merge | smart-verification-backend/app/db.py:140-144 | merging the update into the task, one key after another, never changes the id |
| Db.MergeFields | smart-verification-backend/app/db.py:137-146 | after an update, a field holds the update's value when it gives a non-null one (an empty string included), and its old value otherwise; nulls cannot clear a field |
| Db.MergeOfNulls | smart-verification-backend/app/db.py:140-146 | an update whose values are all null leaves the task unchanged |
| Db.MergeIsFieldwise | smart-verification-backend/app/db.py:137-146 | the updated task is exactly the task with the old id whose every field is the non-null update value where one is given and the old value elsewhere |
| Db.AnalyzeStep | smart-verification-backend/app/db.py:154-157 | one step never produces DRAFT, produces ERROR only from ERROR, and changes nothing exactly on COMPLETED and ERROR |
| Db.AnalyzeConverges | smart-verification-backend/app/db.py:154-157 | from any status but ERROR, two or more calls reach COMPLETED and stay there |
| Db.AnalyzeNeverRegresses | smart-verification-backend/app/db.py:154-157 | any number of calls never yields DRAFT, and yields ERROR only from ERROR |
| Db.DraftNeedsTwoCalls | smart-verification-backend/app/db.py:154-157 | DRAFT is ANALYZING after one call and COMPLETED after two |
| Db.TaskStore.constructor | smart-verification-backend/app/db.py:5 | the store starts empty |
| Db.TaskStore.GetTasks | smart-verification-backend/app/db.py:93-122 | the result is an order-preserving subsequence of the stored tasks, holding exactly those that match every given parameter; with none given, all tasks in insertion order |
| Db.TaskStore.GetTask | smart-verification-backend/app/db.py:124-125 | lookup finds a task iff its id is stored, and the task found carries that id |
| Db.TaskStore.CreateTask | smart-verification-backend/app/db.py:127-131 | afterwards the id looks up the new task and every other id is untouched; a new id goes last in the order, and an existing one is silently overwritten in place |
| Db.TaskStore.UpdateTask | smart-verification-backend/app/db.py:133-146 | an unknown id gives None and changes nothing; otherwise the stored task becomes `Merge` of the old one with the update, the order is kept and the other tasks are untouched |
| Db.TaskStore.AnalyzeTask | smart-verification-backend/app/db.py:148-160 | an unknown id gives None and changes nothing; otherwise only the status moves one step of `NextStatus`, and nothing else changes |
| TaskTable.StatusColorsDistinct | smart-verification-frontend/src/components/TaskTable.tsx:23-36 | the four statuses get four different badge classes |
| TaskTable.StatusColorFallback | smart-verification-frontend/src/components/TaskTable.tsx:33-34 | any other value gets the DRAFT class |
| TaskTable.WithAnalyzing | smart-verification-frontend/src/components/TaskTable.tsx:43 | adding the id puts it in the set and leaves every other id as it was |
| TaskTable.WithoutAnalyzing | smart-verification-frontend/src/components/TaskTable.tsx:49-53 | deleting the id takes it out and leaves every other id as it was |
| TaskTable.ReplayInFlight | smart-verification-frontend/src/components/TaskTable.tsx:39-55 | starting from the empty set, an id is in flight after a run of starts and completions iff the latest event about it is a start |
| TaskTable.AnalyzeTracker.constructor | smart-verification-frontend/src/components/TaskTable.tsx:39 | the in-flight set starts empty |
| TaskTable.AnalyzeTracker.Begin | smart-verification-frontend/src/components/TaskTable.tsx:43 | starting adds the id, so its button is disabled, and no other row changes |
| TaskTable.AnalyzeTracker.End | smart-verification-frontend/src/components/TaskTable.tsx:44-53 | a refresh is requested iff the request succeeded; either way the id leaves the set, so its button is enabled, and no other row changes |
| TaskEdit.WithText | smart-verification-frontend/src/components/TaskEdit.tsx:35-40 | an input change sets exactly that field to the text; every other field, the status, the path and the details keep their values |
| TaskEdit.WithTextUnchanged | smart-verification-frontend/src/components/TaskEdit.tsx:35-40 | typing a field's current text leaves the copy as it was |
| TaskEdit.WithTextOverwrites | smart-verification-frontend/src/components/TaskEdit.tsx:35-40 | of two edits to one field only the later one counts |
| TaskEdit.WithTextCommutes | smart-verification-frontend/src/components/TaskEdit.tsx:35-40 | edits to different fields commute |
| TaskEdit.EditKeepsIdAndShape | smart-verification-frontend/src/components/TaskEdit.tsx:78-83 | edits made through the enabled inputs never change the id, and never change which fields are editable |
| TaskEdit.SubmitOutcome | smart-verification-frontend/src/components/TaskEdit.tsx:49-71 | no copy: no request and no effect; otherwise the whole copy is sent under its own id; success toasts, refreshes and then closes; failure only toasts |
| TaskEdit.TaskEditor.constructor | smart-verification-frontend/src/components/TaskEdit.tsx:23-24 | no working copy and not submitting |
| TaskEdit.TaskEditor.Seed | smart-verification-frontend/src/components/TaskEdit.tsx:27-31 | a non-null task replaces the copy; a null one leaves the copy as it was |
| TaskEdit.TaskEditor.InputChange | smart-verification-frontend/src/components/TaskEdit.tsx:35-40 | the copy becomes `WithText` of itself; without a copy it stays absent |
| TaskEdit.TaskEditor.StatusChange | smart-verification-frontend/src/components/TaskEdit.tsx:42-47 | only the copy's status changes; without a copy it stays absent |
| TaskEdit.TaskEditor.Submit | smart-verification-frontend/src/components/TaskEdit.tsx:49-71 | the outcome is `SubmitOutcome` of the copy; the copy itself is unchanged on either outcome, and the submitting flag is down afterwards |

## Left out

- Network I/O is not modelled: the `fetch` calls, the base URL, JSON decoding and percent-encoding. A query is a sequence of (key, value) pairs, and the other request wrappers (single-task fetch, update, analyze, tenant tree, option lists) appear only through their outcome (`ok` parameters).
- The id `create_task` generates from a random UUID is a parameter of `CreateTask`, because it is nondeterministic.
- The sample data loaded at start-up, the script-type list and the option-list endpoints are not modelled. The routing module `main.py` is not part of this model; its partial-update conversion is reflected by the update being a list of the keys the client set.
- The application shell `App.tsx` is not part of this model: re-fetch on filter change, the loading flag, and overlapping fetches that may apply a stale response. These are asynchronous scheduling. The model treats every handler as running to completion, one after another.
- The task detail view is presentation and is not part of this model. So are the JSX rendering, toasts as UI, `useEffect` timing and console logging. Toast titles appear only as effects of a submit.
- Db.ContainsIgnoringCase: Python's `str.lower()` is full Unicode. The model lower-cases ASCII letters only.
- The request models' validation is not modelled. An update is assumed to hold each key once, with a value of the field's type (`Db.ValidUpdate`). The `details` dictionary is opaque text.
- JavaScript's distinction between `null` and `undefined` is not modelled; both are `None`. So the drawer's rule "show an optional input when the field is not undefined" is modelled as "when it is defined".
- TaskEdit.TaskEditor.StatusChange: takes a `TaskStatus`. The select only offers the four labels, so an arbitrary string cast to a status is not modelled.
- FilterSection.FilterPanel.SelectAtLevel requires `level` to be an index of an existing option level, since only existing levels render a dropdown. A selection at a level beyond them, which would leave holes in the option array, is not modelled.
- Db.TaskStore.AnalyzeTask: the task object is mutated in place, so anything else holding it sees the change. The model has values only and does not capture this aliasing.
- Requests for different tasks that are in flight at once are modelled only by the order in which their `Begin` and `End` calls happen (`TaskTable.ReplayInFlight`). The asynchronous React state updates themselves are not modelled.
