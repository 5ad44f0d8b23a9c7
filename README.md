# Task board: the Home component's task store

This project models the task store of the task board's single page, the
`Home` component in `src/app/page.js`. The component holds three pieces of
state:

- `tasks`: an ordered sequence of `{ id, title, description }` records;
- `newTask`: the draft title;
- `nextId`: the id counter.

It mirrors `tasks` to the `"tasks"` key of the browser's local storage. The
model has two modules.

- `TaskModel` (`task_model.dfy`) holds the values and the pure array
  computations: the `Task` record, and the `reduce` fold that finds the largest
  saved id. It also holds the spread-append that `addTask` uses, and the
  positional `filter` that `handleDelete` uses. Beside these are the id
  predicates and the lemmas about them.
- `HomePage` (`home_page.dfy`) holds the state machine. `Storage` is the
  one storage key. `Home` is a class with the component's three state cells
  as fields and one method per handler: `Load` is the mount effect, `SetDraft`
  the input's change handler, `AddTask` is `addTask`, and `Delete` is
  `handleDelete`. Each handler is one atomic step that reads the state as it
  was before the call, as the source's closures do.

The object invariant `Home.Valid()` says that every displayed id is below
`nextId`. The constructor and `Load` establish it, and `AddTask` and `Delete`
preserve it. That bound alone does not make ids unique, because a saved
sequence may already hold duplicate ids. So `AddTask` and `Delete` also
preserve "ids are pairwise distinct" and "ids increase along the sequence"
whenever these held before the call. Starting from an empty store, both
therefore hold forever. Three client methods verify concrete scenarios:
adding a task to an empty store, deleting a middle task, and loading a task
with id 5. In the first, a reload from the same store is proved to give the
same sequence back.

Two behaviours of the code are worth knowing.

- Ids can be reissued. A reload recomputes the counter from the largest saved
  id, so suppose the task holding the largest id is deleted and the page is
  reloaded. That id is handed out again. Lemmas `ReloadCounter` and
  `ReloadReusesDeletedId` state this. So ids are unique among the tasks on
  display, not over the life of the store; the model follows the code.
- Nothing in the UI ever calls `handleDelete`. The list component receives it
  as `onDelete` (src/app/page.js:130), but it only reads `tasks`
  (src/components/TaskList.js:6). `Delete` models the handler as written.

The model follows the code on two more points. First, only an absent storage
key falls back to the empty sequence. Second, an empty draft still produces a
task.

## Model

| member | source | states |
|---|---|---|
| TaskModel.MaxIdFrom | src/app/page.js:41 | the `reduce` with `Math.max` from seed `acc` is at least `acc` and every id, and is `acc` or one of the ids: the maximum of the seed and the ids |
| TaskModel.MaxId | src/app/page.js:41 | the fold seeded with 0 is non-negative and bounds every id, is 0 or an id that occurs, and is 0 for an empty sequence: 1 + the result exceeds every saved id |
| TaskModel.Append | src/app/page.js:65 | `[...tasks, newTaskObj]` is one longer, keeps every earlier task at its position and ends with the new task |
| TaskModel.FilterPos | src/app/page.js:83 | the positional filter never lengthens the sequence |
| TaskModel.FilterPosSlices | src/app/page.js:83 | filtering out position `index` equals cutting out that one element when it is in range, and is the identity otherwise |
| TaskModel.RemoveAt | src/app/page.js:83 | `tasks.filter((_, i) => i !== index)` is `tasks[..index] + tasks[index+1..]`, one shorter, for an index in range, and `tasks` unchanged for any other index |
| TaskModel.RemoveAtFrom | src/app/page.js:83 | after removal, the tasks before `index` keep their positions and the later ones shift down by one |
| TaskModel.AppendKeepsIds | src/app/page.js:52-65 | appending a task whose id is the counter keeps every id below the counter plus one; it keeps distinct ids distinct and increasing ids increasing |
| TaskModel.RemoveAtKeepsIds | src/app/page.js:83 | removal keeps any upper bound on the ids; it keeps distinct ids distinct and increasing ids increasing |
| TaskModel.ReloadCounter | src/app/page.js:39-42 | if a live counter bounds every id, the counter recomputed at reload is at most that counter, and equal to it exactly when the counter is 1 or its predecessor is still an id |
| TaskModel.ReloadReusesDeletedId | src/app/page.js:41-42 | with ids 1, 2, 3 and the counter at 4, deleting the last task and reloading sets the counter back to 3, so id 3 is issued again |
| HomePage.Storage.constructor | src/app/page.js:39 | the `"tasks"` storage key starts out holding the given saved sequence, or nothing |
| HomePage.Home.constructor | src/app/page.js:28-36 | the initial state is no tasks, an empty draft and counter 1, and satisfies the invariant |
| HomePage.Home.Load | src/app/page.js:38-43 | an absent key loads the empty sequence and a present one loads its value; the counter becomes 1 + the largest of 0 and the loaded ids (1 for no tasks), which is above every loaded id; the draft and storage are unchanged |
| HomePage.Home.SetDraft | src/app/page.js:113 | the draft becomes the given text, unvalidated; tasks and counter are unchanged |
| HomePage.Home.AddTask | src/app/page.js:46-80 | the new sequence is the old one with `{ id: old nextId, title: old draft, description: "" }` appended, even for an empty draft; the counter grows by exactly 1, the draft becomes empty, storage holds the new sequence, and the invariant, distinct ids and increasing ids are preserved |
| HomePage.Home.Delete | src/app/page.js:82-86 | the new sequence is the old one without position `index`, in order, or is unchanged for an index out of range; the counter and draft are unchanged, storage holds the new sequence, and the invariant, distinct ids and increasing ids are preserved |

## Left out

- JSON serialisation and parsing: storage holds the parsed sequence, and a save followed by a load is taken as the identity. Malformed text, which would throw at src/app/page.js:39, is not modelled. Neither are non-array values, or records without a numeric id, for which the fold would give `NaN`.
- Other falsy stored values that `|| []` would also replace (`0`, `""`, `false`) are not modelled. Only an absent key is.
- JavaScript numbers: ids and the counter are unbounded integers, so the loss of precision above 2^53 is not modelled.
- `Delete` takes an integer index. A non-number `index` matches no position under `!==`, but that case is not modelled.
- React scheduling is not modelled: batched and asynchronous `setState`, stale closures across re-renders, and the timing of `useEffect` (including handler calls before the mount effect runs). Each handler is one sequential step.
- The `console.log` calls (src/app/page.js:48, 50, 72) are debugging output.
- The JSX, styling, `Link`, the unused `use` import and `src/components/TaskList.js` are presentation with no logic.
