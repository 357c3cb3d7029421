# StudyTrack in Dafny

StudyTrack is a study planner. A signed-in student keeps academic tasks: a title, a description, a priority, a deadline, a subject and a completion flag. Subjects are categories with a name and a colour. The React client keeps tasks and categories in a persisted store. It derives the home page's filtered and sorted list and the profile page's statistics from that store. It shows each task as a card with a relative deadline. Two forms validate their input, one for tasks and one for login and signup. An Express server stores tasks and users in MongoDB.

This project models that core in Dafny and proves properties of the model:

- **Stores** (`task_store.dfy`, `auth_store.dfy`, `theme_store.dfy`, `toast_store.dfy`). Each store is a class whose methods update its fields. Each method is proved against a function on the old state.
- **Home page** (`home_page.dfy`). The filter buckets (today, upcoming, overdue, completed) and the priority filter are specified as a function. The page's stable sort by deadline is an in-place insertion sort over an `array`. It is proved to produce exactly the sorted permutation the specification function gives.
- **Profile page** (`profile_page.dfy`). The statistics are computed from the user's tasks. The completion rate is rounded with exact integer arithmetic. The profile editor renames the user only after the server accepts.
- **Task card** (`task_card.dfy`). The deadline label, the subject lookup, and the delete and toggle buttons, which change the local store whatever the server answers.
- **Task form** (`task_form.dfy`). Validation, the optional new subject with a random palette colour, and submission. Submission updates or adds the task on success and on failure alike; on failure it calls `onSubmit` twice, as written.
- **Login/signup form** (`auth_form.dfy`). Validation, including the unanchored email pattern `\S+@\S+\.\S+`. The form decides it with a scan proved equivalent to the pattern's definition.
- **Server task routes** (`task_routes.dfy`). The AcadTasks collection is a map from document id to document. The model covers list-by-user, create, update, delete and toggle, each with its 400/404 cases.
- **Server account routes** (`auth_routes.dfy`). The users collection is a sequence in natural order. The model covers signup, login and the three-step profile update.
- **Shared definitions.** `object_id.dfy` defines when a string names a MongoDB id. `common.dfy` holds the shared sequence and time helpers, and `model.dfy` the shared records.

Dates are integer milliseconds in local time. A calendar day is `t / 86400000`, and the start of today is that day times 86400000.

Calls the code cannot see are parameters of the model:

- the clock (`now`);
- random ids and colour draws;
- the outcome of every `fetch`/`axios` request (`Remote`: `Ok` or `Fail`);
- the date parser (`toDate`, `parse`);
- bcrypt (`hash`, `compare`);
- the database's generated ids.

Where the project's written description and its code disagree, the model follows the code. The description gives the label "In N days" for 1 < N < 7. The card's code tests `daysUntil > 0`, so the model labels 0 < N < 7. The consequence is recorded under Findings.

## Model

| member | source | states |
|---|---|---|
| Model.OverdueIsEarlierDay | src/components/tasks/TaskCard.tsx:89-96 | A task is overdue exactly when it is open and due on an earlier calendar day; a task due today is never overdue |
| TaskStore.TaskStore.constructor | src/store/useTaskStore.ts:30-33 | The store starts with no tasks, no categories, not loading and no error |
| TaskStore.TaskStore.FetchTasks | src/store/useTaskStore.ts:35-52 | On success the tasks become the server's list and the error is cleared; on failure the tasks are kept and the error is 'Failed to fetch tasks'; loading ends either way; categories are untouched |
| TaskStore.TaskStore.AddTask | src/store/useTaskStore.ts:54-65 | Appends exactly one task at the end, every earlier task unchanged; it is stamped with `now` and carries the supplied id, else the generated one |
| TaskStore.UpdateById | src/store/useTaskStore.ts:67-75 | Same length; every task with that id is merged with the patch and stamped `now`; every other task is unchanged; an absent id changes nothing |
| TaskStore.TaskStore.UpdateTask | src/store/useTaskStore.ts:67-75 | The task list becomes `UpdateById` of the old list |
| TaskStore.UpdateKeepsOtherIds | src/store/useTaskStore.ts:67-75 | A patch without an id leaves the list of ids exactly as it was |
| TaskStore.RemoveById | src/store/useTaskStore.ts:77-81 | A task remains exactly when it was there and its id differs |
| TaskStore.RemoveByIdKeepsOrder | src/store/useTaskStore.ts:77-81 | The surviving tasks stay in their order and multiplicity: deleting from a concatenation deletes from each part, and a single task survives exactly when its id differs |
| TaskStore.TaskStore.DeleteTask | src/store/useTaskStore.ts:77-81 | The task list becomes `RemoveById` of the old list |
| TaskStore.RemoveByIdIdempotent | src/store/useTaskStore.ts:77-81 | Deleting the same id twice is deleting it once |
| TaskStore.AddThenDeleteRestores | src/store/useTaskStore.ts:54-81 | Adding a task with a fresh id and deleting it gives back the original list |
| TaskStore.Flip | src/store/useTaskStore.ts:83-91 | The completion flag is negated and `updatedAt` is `now`; every other field is unchanged |
| TaskStore.ToggleById | src/store/useTaskStore.ts:83-91 | Same length; tasks with that id are flipped, the rest unchanged |
| TaskStore.TaskStore.ToggleTaskCompletion | src/store/useTaskStore.ts:83-91 | The task list becomes `ToggleById` of the old list |
| TaskStore.ToggleTwiceRestoresCompleted | src/store/useTaskStore.ts:83-91 | Toggling the same id twice gives every task back its completion flag |
| TaskStore.TaskStore.AddCategory | src/store/useTaskStore.ts:93-104 | Returns the category with the generated id and the given fields, and appends exactly it |
| TaskStore.UpdateCategoryById | src/store/useTaskStore.ts:106-112 | Same length; categories with that id are merged with the patch, the rest unchanged |
| TaskStore.TaskStore.UpdateCategory | src/store/useTaskStore.ts:106-112 | The categories become `UpdateCategoryById` of the old ones |
| TaskStore.RemoveCategoryById | src/store/useTaskStore.ts:114-118 | A category remains exactly when it was there and its id differs |
| TaskStore.RemoveCategoryByIdKeepsOrder | src/store/useTaskStore.ts:114-118 | The surviving categories stay in their order and multiplicity, one category surviving exactly when its id differs |
| TaskStore.TaskStore.DeleteCategory | src/store/useTaskStore.ts:114-118 | The categories become `RemoveCategoryById` of the old ones |
| TaskStore.TasksOfSubject | src/store/useTaskStore.ts:120-122 | Exactly the tasks whose subject is the category id |
| TaskStore.TasksOfSubjectKeepsOrder | src/store/useTaskStore.ts:120-122 | The tasks of a subject come out in store order and multiplicity: a concatenation gives the parts' results in turn, one task appearing exactly when its subject matches |
| TaskStore.TaskStore.GetTasksByCategory | src/store/useTaskStore.ts:120-122 | Exactly the tasks whose subject is the category id; it is `TasksOfSubject` of the store's tasks, so they come in store order |
| TaskStore.TasksOfPriority | src/store/useTaskStore.ts:124-126 | Exactly the tasks of that priority |
| TaskStore.TasksOfPriorityKeepsOrder | src/store/useTaskStore.ts:124-126 | The tasks of a priority come out in store order and multiplicity, one task appearing exactly when its priority matches |
| TaskStore.TaskStore.GetTasksByPriority | src/store/useTaskStore.ts:124-126 | Exactly the tasks of that priority; it is `TasksOfPriority` of the store's tasks, so they come in store order |
| TaskStore.UpcomingTasks | src/store/useTaskStore.ts:128-136 | Exactly the open tasks due by `now` plus the given days; every overdue task is among them |
| TaskStore.TaskStore.GetUpcomingTasks | src/store/useTaskStore.ts:128-136 | Exactly the open tasks of the store due by `now` plus the given days |
| AuthStore.AuthStore.constructor | src/store/useAuthStore.ts:20-22 | No user and not authenticated |
| AuthStore.AuthStore.Login | src/store/useAuthStore.ts:24-26 | The given user is signed in and authenticated |
| AuthStore.AuthStore.Signup | src/store/useAuthStore.ts:28-36 | A new user with the generated id, the given name and email, and `now`, is signed in |
| AuthStore.AuthStore.Logout | src/store/useAuthStore.ts:38-40 | No user and not authenticated |
| AuthStore.AuthStore.UpdateProfile | src/store/useAuthStore.ts:42-46 | A signed-in user is merged with the patch, no user stays none, authentication is unchanged, and "authenticated iff a user" is preserved |
| AuthStore.NamePatchOnlyRenames | src/store/useAuthStore.ts:42-46 | Merging a patch of just a name changes the name and nothing else |
| AuthStore.MergeUserIdempotent | src/store/useAuthStore.ts:42-46 | Applying the same profile patch twice is applying it once |
| ThemeStore.Toggled | src/store/useThemeStore.ts:23-28 | The toggled theme differs from the current one |
| ThemeStore.ToggledTwice | src/store/useThemeStore.ts:23-28 | Toggling twice gives the original theme back |
| ThemeStore.ThemeStore.constructor | src/store/useThemeStore.ts:16 | The theme starts light |
| ThemeStore.ThemeStore.SetTheme | src/store/useThemeStore.ts:18-21 | The theme becomes the given one |
| ThemeStore.ThemeStore.ToggleTheme | src/store/useThemeStore.ts:23-28 | Light becomes dark and dark becomes light |
| ToastStore.PositionOrTop | src/store/useToast.ts:21-22 | An omitted position is top; a given one is kept |
| ToastStore.Toast.constructor | src/store/useToast.ts:17-20 | The toast starts empty, of kind success, at the top, hidden |
| ToastStore.Toast.ShowToast | src/store/useToast.ts:21-22 | Message, kind and position are set, defaulting to top, and the toast is visible |
| ToastStore.Toast.HideToast | src/store/useToast.ts:23 | The toast is hidden; message, kind and position are kept |
| HomePage.SortByDeadline | src/pages/HomePage.tsx:98-100 | The result is a permutation of the input, ordered by deadline |
| HomePage.InsertKeepsSorted | src/pages/HomePage.tsx:98-100 | Inserting into a deadline-ordered list keeps it ordered |
| HomePage.InsertStable | src/pages/HomePage.tsx:98-100 | Insertion puts a task in front of every task with the same deadline and keeps their order; since the sort inserts each task into the sorted rest of the list, equal deadlines keep their original order |
| HomePage.SortStable | src/pages/HomePage.tsx:98-100 | The sort is stable: tasks with equal deadlines keep their relative order |
| HomePage.SortKeepsSorted | src/pages/HomePage.tsx:98-100 | An already ordered list is left exactly as it is |
| HomePage.SortIdempotent | src/pages/HomePage.tsx:98-100 | Sorting twice is sorting once |
| HomePage.ShiftEarlier | src/pages/HomePage.tsx:98-100 | One insertion step in place: later-deadline elements move one slot left and the rest stay put |
| HomePage.InsertIntoSuffix | src/pages/HomePage.tsx:98-100 | In place, the suffix from i - 1 becomes the insertion of its head into the rest; the prefix is untouched |
| HomePage.SortInPlace | src/pages/HomePage.tsx:98-100 | The array ends holding exactly the stable sort of its old contents |
| HomePage.BucketMembership | src/pages/HomePage.tsx:55-89 | A task is in a bucket's list exactly when it is the user's and meets the bucket's rule |
| HomePage.ViewMember | src/pages/HomePage.tsx:52-100 | One task is in the view exactly when it is the user's, in the bucket and of the selected priority |
| HomePage.ViewMembership | src/pages/HomePage.tsx:52-100 | The view holds exactly the user's tasks in the bucket and of the selected priority |
| HomePage.ComputeFilteredTasks | src/pages/HomePage.tsx:52-102 | The computed list is the specified view: exactly the matching tasks, ordered by deadline |
| HomePage.HomeView.RunFilterEffect | src/pages/HomePage.tsx:52-103 | Without a user the list is kept; with one it becomes the view for that user |
| HomePage.SectionsPartitionView | src/pages/HomePage.tsx:107-108 | The incomplete and completed sections split the view with nothing lost or repeated |
| HomePage.SectionsKeepOrder | src/pages/HomePage.tsx:107-108 | Each section keeps the view's order: over a concatenation it is the sections of the parts, and a single task lands in the incomplete section exactly when it is open and in the completed one exactly when it is done |
| HomePage.HiddenSectionIsEmpty | src/pages/HomePage.tsx:189-197 | A section the page hides for a bucket would have been empty anyway |
| HomePage.UpcomingIsDisjointUnion | src/pages/HomePage.tsx:70-82 | "Upcoming" is the overdue tasks plus the open ones due this week, and no task is both |
| HomePage.OverdueWithinUpcoming | src/pages/HomePage.tsx:70-87 | Every overdue task also shows under upcoming, and upcoming shows no completed task |
| HomePage.DueTomorrowIsUpcoming | src/pages/HomePage.tsx:58-89 | An open task due tomorrow shows under upcoming and under no other bucket except all |
| HomePage.PastDueIsOverdueAndUpcoming | src/pages/HomePage.tsx:70-87 | An open task due on an earlier day shows under overdue and upcoming but not today or completed |
| ProfilePage.RoundPercent | src/pages/ProfilePage.tsx:55-57 | 0 without tasks; otherwise the integer nearest 100c/n, halves up, and at most 100 |
| ProfilePage.RoundPercentEnds | src/pages/ProfilePage.tsx:55-57 | No task done is 0%, all done is 100%, and the rate never drops as tasks get done |
| ProfilePage.StatsAddUp | src/pages/ProfilePage.tsx:53-63 | Active counts the open tasks, completed plus active is the total, the rate is 0 with no tasks and at most 100, the three priorities add up to the total, overdue is at most active |
| ProfilePage.PastDueAreOpen | src/pages/ProfilePage.tsx:58-60 | No more tasks are past due than are open |
| ProfilePage.OthersDoNotCount | src/pages/ProfilePage.tsx:53 | Other users' tasks change no figure |
| ProfilePage.DueEarlierTodayCountsOnlyHere | src/pages/ProfilePage.tsx:58-60 | An open task due earlier today is overdue on the profile but not on the card |
| ProfilePage.ProfileEditor.constructor | src/pages/ProfilePage.tsx:47-49 | The editor starts from the user's name, not editing, not loading |
| ProfilePage.ProfileEditor.StartEditing | src/pages/ProfilePage.tsx:97 | Editing starts |
| ProfilePage.ProfileEditor.Cancel | src/pages/ProfilePage.tsx:128-131 | Editing ends and the field shows the stored name again |
| ProfilePage.ProfileEditor.SaveProfile | src/pages/ProfilePage.tsx:65-80 | On success the stored user is renamed to the field's name and editing ends; on failure nothing changes; loading ends either way |
| TaskCard.DifferenceInDays | src/components/tasks/TaskCard.tsx:83 | The whole 24-hour periods from now to the deadline, truncated toward zero |
| TaskCard.FormatDeadline | src/components/tasks/TaskCard.tsx:78-87 | Today iff the same calendar day; Tomorrow iff the next; "In N days" exactly when the deadline is neither and N, the whole-day difference, satisfies 0 < N < 7, and only two or more calendar days ahead; otherwise the date |
| TaskCard.InOneDayTwoDaysAhead | src/components/tasks/TaskCard.tsx:83-84 | A deadline two calendar days ahead can be labelled "In 1 days" |
| TaskCard.FormatDeadlineByCalendar | src/components/tasks/TaskCard.tsx:78-87 | Today, Tomorrow, then "In N days" exactly for calendar distance 2 to 6, N being that distance |
| TaskCard.CalendarLabelRefinesCard | src/components/tasks/TaskCard.tsx:78-87 | Both labels agree on Today and Tomorrow; where the card says "In N days", N is the calendar distance or one less; where the calendar rule says "In N days", so does the card, with N equal or one less |
| TaskCard.WholeDaysBetween | src/components/tasks/TaskCard.tsx:83 | A deadline m >= 1 calendar days ahead is m - 1 or m whole days away |
| TaskCard.CalendarDaysBetween | src/components/tasks/TaskCard.tsx:83 | n whole days apart is n or n + 1 calendar days apart |
| TaskCard.SubjectName | src/components/tasks/TaskCard.tsx:99-102 | The name of the first category with the task's subject id, else "Unknown Subject" |
| TaskCard.HandleDeleteTask | src/components/tasks/TaskCard.tsx:19-42 | The store deletes the task exactly once, whatever the server answered |
| TaskCard.HandleToggleCompletion | src/components/tasks/TaskCard.tsx:45-68 | The store toggles the task exactly once, whatever the server answered |
| TaskForm.RandomColor | src/components/tasks/TaskForm.tsx:152-164 | Every draw picks a colour of the eight-colour palette |
| TaskForm.RandomColorCoversPalette | src/components/tasks/TaskForm.tsx:152-164 | Every palette colour is picked by some draw |
| TaskForm.ValidateTaskForm | src/components/tasks/TaskForm.tsx:33-50 | Title, deadline and subject errors appear exactly when their rule fails, with their messages; valid iff no errors |
| TaskForm.EmptyNewSubjectPasses | src/components/tasks/TaskForm.tsx:44-70 | With the new-subject input open but empty, the form passes and the task gets an empty subject |
| TaskForm.ResolveSubject | src/components/tasks/TaskForm.tsx:60-70 | The new category's id when a new subject was typed, else the selected subject |
| TaskForm.CompletedFlag | src/components/tasks/TaskForm.tsx:79 | Sent completed exactly when editing a completed task |
| TaskForm.UpdateWritesFormData | src/components/tasks/TaskForm.tsx:105 | Updating writes the form's fields onto the task and keeps its id and creation time |
| TaskForm.CreatedTaskId | src/components/tasks/TaskForm.tsx:126-140 | A task created after success carries the server's id; after failure, the store's own |
| TaskForm.FileSubject | src/components/tasks/TaskForm.tsx:60-70 | A typed new subject adds one category with a palette colour and files the task under it; otherwise categories are unchanged |
| TaskForm.ApplySubmit | src/components/tasks/TaskForm.tsx:84-143 | The task is updated, or added, on success and failure alike; `onSubmit` runs once on success and twice on failure |
| TaskForm.TaskForm.constructor | src/components/tasks/TaskForm.tsx:19-31 | The fields start from the edited task, or empty with medium priority; no errors, not submitting |
| TaskForm.TaskForm.Proceed | src/components/tasks/TaskForm.tsx:58-146 | After validation: the subject is filed, the store updated as `SubmitOutcome` says, and submitting ends |
| TaskForm.TaskForm.HandleSubmit | src/components/tasks/TaskForm.tsx:53-147 | Errors shown as validation says; an invalid form or no user changes no store; a valid one reaches `SubmitOutcome` |
| AuthForm.EmailLooksValid | src/components/auth/AuthForm.tsx:48 | The form's decision is exactly whether `\S+@\S+\.\S+` matches somewhere in the text |
| AuthForm.PatternIgnoresSurroundings | src/components/auth/AuthForm.tsx:48 | Text around a matching address does not stop the unanchored pattern matching |
| AuthForm.ValidateAuthForm | src/components/auth/AuthForm.tsx:39-60 | Name required only on signup; email required then pattern-checked; password required then at least 6; each with its message; valid iff no errors |
| AuthForm.AuthForm.constructor | src/components/auth/AuthForm.tsx:16-22 | Empty fields and no errors |
| AuthForm.AuthForm.HandleChange | src/components/auth/AuthForm.tsx:25-37 | Sets exactly the named field; removes that field's error when it held a message; no other error changes |
| AuthForm.AuthForm.HandleSubmit | src/components/auth/AuthForm.tsx:62-68 | The form's data is handed on exactly when the form is valid |
| ObjectIds.ParseObjectId | server/routes/AcadTask.js:154-160 | A string names an id iff it is 24 hex digits; the id is its lower-case form |
| ObjectIds.CanonicalParsesToItself | server/routes/AcadTask.js:154-163 | A stored id, given back as text, finds its own document |
| ObjectIds.ParseIgnoresCase | server/routes/AcadTask.js:154-160 | Texts differing only in letter case name the same id |
| TaskRoutes.NewDoc | server/routes/AcadTask.js:114-124 | The created document: user and title as sent; description '', priority 'medium', subject '', completed false and deadline now when absent or falsy; created and updated now |
| TaskRoutes.MergeDoc | server/routes/AcadTask.js:170-184 | Every field in the body overwrites the document's; a truthy deadline is converted and a falsy one is written as sent; `updatedAt` is now; nothing else changes |
| TaskRoutes.ToggleDoc | server/routes/AcadTask.js:262-269 | The flag becomes the negation of the stored one, missing counting as false; `updatedAt` is now; nothing else changes |
| TaskRoutes.ToView | server/routes/AcadTask.js:74-85 | The listing shows the id as text, a missing description as '', a missing flag as false, every other field as stored |
| TaskRoutes.CreatedTaskListsAsSent | server/routes/AcadTask.js:114-124 | A task created with every field filled in is listed with exactly the values sent |
| TaskRoutes.CreatedTaskDefaults | server/routes/AcadTask.js:114-124 | A task created with only user and title is listed with the defaults |
| TaskRoutes.MergeIdempotent | server/routes/AcadTask.js:170-184 | The same update sent twice at the same moment writes nothing new |
| TaskRoutes.EmptyUpdateOnlyTouches | server/routes/AcadTask.js:170-173 | An update with an empty body only moves `updatedAt` |
| TaskRoutes.ToggleFlipsListedFlag | server/routes/AcadTask.js:262-269 | Each toggle flips the listed flag, so two restore it |
| TaskRoutes.TaskCollection.ListByUser | server/routes/AcadTask.js:65-93 | Every document of that user, transformed, each exactly once, and nothing else |
| TaskRoutes.TaskCollection.Post | server/routes/AcadTask.js:96-141 | 400 and nothing inserted without a truthy user id and title; otherwise exactly the new document under the generated id, answered 201 with that id and document |
| TaskRoutes.TaskCollection.Put | server/routes/AcadTask.js:144-196 | 400 for a malformed id, 404 for an absent one, both changing nothing; otherwise only that document is merged with the body |
| TaskRoutes.TaskCollection.Delete | server/routes/AcadTask.js:199-233 | 400, 404, or exactly that document removed |
| TaskRoutes.TaskCollection.Toggle | server/routes/AcadTask.js:236-281 | 400, 404, or only that document toggled, answered with the new flag |
| TaskRoutes.ToggleTwiceRestores | server/routes/AcadTask.js:236-281 | Two toggles of one id leave every document's flag as it was |
| AuthRoutes.Public | server/routes/auth.js:96-98 | The answer carries every field of the user but the password |
| AuthRoutes.ProfileTarget | server/routes/auth.js:130-166 | The document renamed is one the id names by ObjectId, string `_id` or `id` field, and none iff no document is named by any; the lookups are tried in that order, so an ObjectId match beats a string `_id` match, which beats an `id` field match; and each lookup takes the first document it matches |
| AuthRoutes.ProfileTargetPrefersObjectId | server/routes/auth.js:133-161 | A document with that ObjectId is chosen over matches of the later lookups |
| AuthRoutes.RenameKeepsEmails | server/routes/auth.js:136-160 | A rename keeps emails unique |
| AuthRoutes.UserCollection.Signup | server/routes/auth.js:10-58 | 400 for an empty field; 409 for a taken email; otherwise one user with the hashed password appended and answered 201 without it; unique emails are preserved |
| AuthRoutes.UserCollection.Login | server/routes/auth.js:61-103 | 400 for an empty field; success exactly when the first user with that email exists and the password matches, and then the answer is that first user without the password; the same 401 otherwise |
| AuthRoutes.UserCollection.UpdateFirst | server/routes/auth.js:136-139 | One `updateOne`: renames the first matching document, reporting whether one matched |
| AuthRoutes.UserCollection.UpdateProfile | server/routes/auth.js:106-180 | 400 for an empty field; local-only 200 without a database or when it throws, changing nothing; otherwise the target is renamed, 404 iff there is none; unique emails preserved |
| AuthRoutes.SignupThenLogin | server/routes/auth.js:10-103 | After a signup, logging in with the same password succeeds iff the compare accepts the hash, answering with the new user |

## Left out

- Time zones and daylight saving: a day is always 86400000 ms of local time, so `setHours`, `setDate`, `isToday` and `differenceInDays` are exact day arithmetic.
- The absolute-date label's text (`format(date, 'MMM d, yyyy')`): the label keeps the deadline it would format.
- Parsing of date texts (`new Date(text)`, the form's `YYYY-MM-DD` field and ISO strings): a function parameter. Invalid dates are not modelled.
- Floating point: the completion rate uses exact integer rounding of 100c/n, and the progress-bar widths are not modelled.
- JavaScript string length in UTF-16 code units: a password's length is its number of characters.
- Whitespace: `trim` and `\S` use the JavaScript whitespace set by code point. Surrogate pairs are not modelled.
- Persistence of the stores to local storage, React rendering, and animation and modal state: not part of the logic.
- Network and database plumbing (`fetch`, `axios`, Express wiring, the MongoDB connection and collection creation): every remote outcome is a parameter.
- The 500 responses for unexpected exceptions in the task routes and in signup and login: the model has no exceptions.
- The `GET /` route listing all tasks applies the listing transform without the owner filter. It is not modelled separately.
- The test routes `/test` and `/test-create`: not part of the application's logic.
- The second registration of the toggle route (server/routes/AcadTask.js:292-337) is unreachable behind the first and is modelled once.
- The order of a task listing: the model states which documents appear, not in which order MongoDB returns them.
- JSON `null` versus an absent field: both are `None`. Body fields the routes do not know about, and an `_id` in an update body, are not modelled.
- ObjectIds from 12-byte strings, accepted by some versions of the driver: only the 24-hex-digit form is modelled.
- Partial database failures in the profile update: the database either answers every call or throws on every call.
- Field encryption (server/utils/encryption.js) and the Mongoose schema (server/acadtask.js) are not used by the modelled routes.
- A create reply with neither `id` nor `_id`: the successful reply is the id itself.
- An exception thrown by `onSubmit` itself inside the task form's `try` would replay the store change in the `catch`. Callbacks are assumed not to throw.
- TaskStore.TaskStore.ToggleTaskCompletion: does not state that `updatedAt` strictly increases on each toggle, because the clock is a parameter and nothing makes successive `now` values grow.
- The login and signup pages' glue, the navbar, widgets, popups and the theme provider's DOM class: presentation.

## Findings

| source | as written | input that shows it | evidently intended | confidence | as-written member | corrected member |
|---|---|---|---|---|---|---|
| src/components/tasks/TaskCard.tsx:83-84 | "In N days" counts whole 24-hour periods from now (`differenceInDays`) and accepts N = 1 | now 23:00 on day 0, deadline 01:00 on day 2: neither Today nor Tomorrow, and the card says "In 1 days" | after Today and Tomorrow, count calendar days, so the label starts at "In 2 days" and matches the day the deadline falls on | not executed | TaskCard.InOneDayTwoDaysAhead | TaskCard.FormatDeadlineByCalendar |
