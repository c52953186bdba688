# web_train client logic in Dafny

This project models the client-side logic of a fitness-training web app. In
the app, users follow training days and log sessions, trainers build
templates and assign them to students, and admins curate a global exercise
library. The app is thin glue around a hosted database, so the model covers
only what the client decides for itself:

- **Router** (`router.dfy`): the route table and its three permission flags. The
  navigation guard is a total function `Decide(to, authState)`. It returns
  proceed, go to Login with the intended path, or go to Dashboard.
- **Auth** (`auth.dfy`): the session/role store. Its state is the user, the
  profile, `loading`, and whether the auth-state listener is registered. It
  has four derived role predicates and one transition function per store
  action. Each backend call is an input `Result`.
- **Training** (`training.dfy`): the nested read of a user's days with their
  exercises, the rows sent by the write operations (defaults, `x || null`,
  the `completed` stamp), and the session duration arithmetic.
- **Trainer** (`trainer.dfy`): the exercise-visibility filter, the forced
  scope and owner on created exercises, the nested template read, the
  template row builders, and the two-step, non-atomic template assignment.
- **Backend** (`backend.dfy`) holds the shared pieces: the response types,
  `x || null`, and the two error policies. A read logs the error and returns
  `[]` or `null`. A write logs the error and rethrows it.
- **FanOut** (`fanout.dfy`) is the all-or-nothing nesting of parents with
  their per-parent child queries. It is shared by both nested reads.
- **Records** (`records.dfy`) holds the row shapes. `Exercise` gains the
  `scope` and `owner_id` columns the trainer code writes. The template types
  the trainer code imports are given minimal shapes here, because the types
  file does not define them.

Backend answers are inputs. These include row lists in the order the server
returns them, single rows, and errors. The properties describe what the
client does with those answers. Clock readings are integer milliseconds.

Two details of the source differ from what a reader might expect:

- `isAuthenticated` depends only on the user, not on the profile (src/stores/auth.ts:19).
- `TrainingDay` has no template or assigned-by columns (src/types/training.ts:17-25).

## Model

| member | source | states |
|---|---|---|
| Backend.EmptyToNull | src/composables/useTraining.ts:67 | `x \|\| null` sends a missing or empty string as null and any other string unchanged |
| Backend.Swallow | src/composables/useTraining.ts:139-157 | read policy: the caller gets the answer, or the fallback (`[]`/`null`) on failure; `error` holds the message exactly when the call failed |
| Backend.Rethrow | src/composables/useTraining.ts:159-179 | write policy: the caller gets exactly the backend's answer or its error; `error` holds the message exactly when the call failed |
| Backend.ReadFailureLooksEmpty | src/composables/useTraining.ts:47-49 | a failed read returns the same value to the caller as an empty answer (only `error` differs), while a failed write always surfaces |
| FanOut.NestAll | src/composables/useTraining.ts:26-44 | the per-parent fan-out succeeds iff every child query succeeds; then one entry per parent in order, each parent with its children (`\|\| []`); else the error of some failed child query |
| FanOut.NestAllKeepsOrder | src/composables/useTraining.ts:17-35 | parents sorted by the server stay sorted, and every child list sorted by the server stays sorted |
| FanOut.ChildlessParentKept | src/composables/useTraining.ts:39-42 | a parent whose child query returns no rows is kept with an empty list, not dropped |
| Records.PrescriptionOf | src/composables/useTraining.ts:86-89 | an explicit sets/reps/rest/position argument is used as given; an omitted one takes its default |
| Records.AllDefaults | src/composables/useTrainer.ts:158-161 | the defaults are 3 sets, reps "10-12", 60 s rest, position 0 |
| Training.GetTrainingDays | src/composables/useTraining.ts:11-53 | no error iff the day query and every per-day exercise query succeed; then one entry per fetched day in fetched order with that day's exercises; on any failure `[]` and the failing query's message |
| Training.GetTrainingDaysOrdered | src/composables/useTraining.ts:17-35 | days ordered by day number and exercises by position on input come out in that order |
| Training.EmptyDayIsListed | src/composables/useTraining.ts:39-42 | a day whose exercise query returns no rows is listed with an empty exercise list |
| Training.TrainingDayRow | src/composables/useTraining.ts:56-68 | the day row copies user, number and name; description is null iff it was missing or empty |
| Training.DayExerciseRow | src/composables/useTraining.ts:83-104 | the row links the day and exercise; omitted arguments become 3 / "10-12" / 60 / 0, given ones are kept |
| Training.TrainingSessionRow | src/composables/useTraining.ts:247-258 | a new session row carries the user, the day and the client's clock reading as start time |
| Training.DurationSeconds | src/composables/useTraining.ts:278-280 | the duration is the floor of the elapsed milliseconds over 1000, and it is non-negative when end is not before start |
| Training.DurationExample | src/composables/useTraining.ts:280 | a start 125 000 ms before the end gives 125 s |
| Training.FinishTrainingSession | src/composables/useTraining.ts:273-289 | the finish update marks the session completed, ends it at the clock reading, and stores the whole seconds elapsed since the start |
| Training.SessionStartThenFinish | src/composables/useTraining.ts:254-258 | a session started at `t0` and finished at `t1 >= t0` ends at `t1`, completed, with non-negative whole seconds not exceeding the elapsed time (0 under one second) |
| Training.FinishTouchesOnlyItsColumns | src/composables/useTraining.ts:282-289 | applying the finish update sets end time, duration and completed and leaves every other column unchanged |
| Training.ExerciseSetRow | src/composables/useTraining.ts:301-325 | every logged set row is completed; session, day exercise, exercise, set number, weight, reps and rest are copied verbatim |
| Training.LoggedSetIsCompleted | src/types/training.ts:56-68 | the stored set row for a logged set is completed, linked to its session, day exercise and exercise, carries the given weight, reps and rest, and has no notes |
| Training.ExerciseOrderUpdate | src/composables/useTraining.ts:225-233 | the reorder update carries the new position |
| Training.ReorderTouchesOnlyPosition | src/composables/useTraining.ts:230-233 | applying the reorder update changes `order_index` and nothing else |
| Auth.AuthenticationIgnoresProfile | src/stores/auth.ts:19 | being authenticated depends on the user only, never on the profile |
| Auth.IsAdmin | src/stores/auth.ts:20 | admin needs a loaded profile |
| Auth.IsTrainer | src/stores/auth.ts:21 | trainer needs a loaded profile |
| Auth.IsTrainerOrAdmin | src/stores/auth.ts:22-24 | trainer-or-admin is exactly trainer or admin, and never holds for the plain user role |
| Auth.NoProfileNoRole | src/stores/auth.ts:20-24 | without a profile, none of the role predicates hold |
| Auth.LoadProfile | src/stores/auth.ts:27-42 | no user: no change; failed lookup: no change (previous profile kept); successful lookup: profile replaced; user and flags never touched |
| Auth.Initialize | src/stores/auth.ts:45-69 | loading ends whatever happens; a restore that throws changes nothing else and registers no listener; otherwise the user is the restored one and the listener is registered; a successful lookup loads its profile, while a failed one, or no session, keeps the previous profile |
| Auth.AuthStateChanged | src/stores/auth.ts:56-63 | with the listener registered, the user becomes the session's; no session clears the profile (and all roles); a session with a successful lookup loads its profile, a failed lookup keeps the previous profile; without the listener nothing changes |
| Auth.SignUp | src/stores/auth.ts:72-79 | sign-up leaves the store untouched and returns exactly what the auth service answered: its user, or its error rethrown |
| Auth.SignIn | src/stores/auth.ts:82-91 | a rejected sign-in throws and changes nothing; an accepted one authenticates the user and loads their profile when the lookup succeeds, while a failed lookup keeps the previous profile; loading and the listener flag never change |
| Auth.SignOut | src/stores/auth.ts:94-99 | a successful sign-out clears user and profile (no role holds); a failed one throws and changes nothing |
| Auth.UpdateRole | src/stores/auth.ts:102-112 | a failed update throws and changes nothing; the profile is reloaded only when the updated id is the signed-in user's; nothing but the profile ever changes, and a failed reload changes nothing |
| Auth.SuccessfulReloadMatchesUser | src/stores/auth.ts:82-99 | sign-in with a successful lookup, sign-out, and a change to no session keep the profile belonging to the signed-in user |
| Auth.StaleProfileAfterFailedReload | src/stores/auth.ts:37-41 | a failed reload after a change of user keeps the previous user's profile: an admin role can survive a switch to another user |
| Auth.FailedReloadKeepsPreviousRole | src/stores/auth.ts:56-63 | for every matching signed-in state, a change to another user whose lookup fails keeps the previous profile and role, so the profile no longer belongs to the user |
| Auth.InitializeFromInitial | src/stores/auth.ts:45-69 | from the store's start state (lines 15-17: no user, no profile, loading), initialising ends loading with a profile that belongs to the user; signed in iff a session was restored, and no role otherwise |
| Auth.SelfRoleChangeIsVisible | src/stores/auth.ts:108-111 | after changing one's own role, with the reload returning the new row, the role predicates report the new role |
| Router.RoutesAreRecords | src/router/index.ts:16-83 | every table entry is the record declared for its name |
| Router.RoleRoutesRequireAuth | src/router/index.ts:59-82 | every admin or trainer route also requires a session |
| Router.RouteTableTiers | src/router/index.ts:16-83 | exactly `/admin/exercises` is admin-only, exactly the three `/trainer/...` paths are trainer-only, exactly `/`, `/login`, `/register` are public |
| Router.Decide | src/router/index.ts:110-128 | go to Login (with `to.fullPath`) iff a session is required and missing; proceed iff the flags' access policy permits and it is not a signed-in visit to Login/Register; Dashboard otherwise |
| Router.UnauthenticatedAdminVisitGoesToLogin | src/router/index.ts:111-117 | an unauthenticated visit to the admin route goes to Login, not Dashboard |
| Router.NonAdminSentToDashboard | src/router/index.ts:114-117 | a signed-in non-admin visiting the admin route goes to Dashboard |
| Router.TrainerRoutesAdmitTrainersAndAdmins | src/router/index.ts:118-121 | trainer routes let trainers and admins through and send plain users (or sessions without a profile) to Dashboard |
| Router.SignedInLeavesGuestPages | src/router/index.ts:122-124 | a signed-in visit to Login or Register goes to Dashboard |
| Router.RedirectIsStable | src/router/index.ts:110-127 | for table routes, the guard lets the redirect target through under the same auth state |
| Trainer.Visible | src/composables/useTrainer.ts:251 | global rows are always visible; trainer rows iff owned by the given non-empty trainer id; personal rows iff owned by the user |
| Trainer.Available | src/composables/useTrainer.ts:248-252 | the query selects exactly the rows of the table that are visible (by membership) |
| Trainer.AvailableCounts | src/composables/useTrainer.ts:248-255 | each visible row appears as often as in the table and no other row appears, so the filter neither repeats nor drops rows |
| Trainer.GetAvailableExercises | src/composables/useTrainer.ts:243-262 | on success exactly the visible rows, each as often as in the table; on failure `[]` with the backend's message as the error |
| Trainer.AvailableIsUnionOfScopes | src/composables/useTrainer.ts:242-251 | the visible set is the global rows, plus the given trainer's rows (none without a trainer), plus the user's personal rows |
| Trainer.TrainerExerciseRow | src/composables/useTrainer.ts:191-202 | the inserted object has scope trainer and owner the trainer, whatever the caller passed; every other key is kept |
| Trainer.PersonalExerciseRow | src/composables/useTrainer.ts:217-228 | the inserted object has scope personal and owner the user, whatever the caller passed; every other key is kept |
| Trainer.TrainerExerciseReachesOnlyTheirStudents | src/composables/useTrainer.ts:198-202 | a stored trainer exercise is visible exactly to viewers whose trainer is that (non-empty) trainer |
| Trainer.PersonalExerciseReachesOnlyItsOwner | src/composables/useTrainer.ts:224-228 | a stored personal exercise is visible to its owner and to nobody else |
| Trainer.TemplateRow | src/composables/useTrainer.ts:18-29 | the template row copies trainer and name; description is null iff missing or empty |
| Trainer.TemplateDayRow | src/composables/useTrainer.ts:123-140 | the template-day row copies template, number and name; description is null iff missing or empty |
| Trainer.TemplateDayExerciseRow | src/composables/useTrainer.ts:155-176 | omitted arguments become 3 / "10-12" / 60 / 0, given ones are kept |
| Trainer.GetTemplateComplete | src/composables/useTrainer.ts:66-120 | a result iff the template, day and every exercise query succeed: the template plus one entry per fetched day in order with its exercises; otherwise `null` and the failing query's message |
| Trainer.GetTemplateCompleteOrdered | src/composables/useTrainer.ts:81-99 | days ordered by day number and exercises by position on input come out in that order |
| Trainer.AssignmentRow | src/composables/useTrainer.ts:276-283 | the assignment row copies template, student and trainer; notes are null iff missing or empty |
| Trainer.AssignTemplateToStudent | src/composables/useTrainer.ts:265-305 | the copy procedure is called (for that template and student) iff the insert succeeded; success iff both steps succeed, returning the inserted assignment; each failure surfaces its own error, and the shared `error` text is that error's message; the assignment row stays whenever the insert succeeded |
| Trainer.FailedCopyLeavesAssignment | src/composables/useTrainer.ts:287-302 | a copy failing after a successful insert throws the copy's error while the assignment row remains, with no rollback |

## Left out

- Backend semantics are not modelled: the queries themselves, server-side ordering (`.order(...)`), row-level security, and what `copy_template_to_user` copies. Fetched rows are inputs, and their order is an assumption of the ordering lemmas.
- Trainer.Visible: a missing or empty trainer id is sent as the literal `null` in the filter. The model assumes it matches no trainer-scoped row, because the backend's reading of `owner_id.eq.null` is not visible. Ids are also assumed not to contain filter syntax such as `,` or `)`.
- Trainer.Available: does not state the server's sort by name. Rows come back in snapshot order.
- FanOut.NestAll: `Promise.all` runs the child queries concurrently and reports the first failure in time. The contract only says the reported error is some failed query's error. The function itself takes them in parent order.
- These operations send the caller's object or id unchanged, so their only client logic is the error policy (`Backend.Swallow` for reads, `Backend.Rethrow` for writes) and, for the reads, `data || []` (`Backend.OrEmpty`). They have no function of their own: `removeExerciseFromDay`, `getAllExercises`, `createExercise`, `updateExercise`, `deleteExercise`, `getTrainingSessions`, `getSessionSets`, `getTrainerTemplates`, `getTrainerStudents`, `getStudentAssignments`, `deleteTemplate`, `deleteTemplateDay`, `removeExerciseFromTemplateDay`, `updateTemplate`.
- Router.Decide: the guard's wait for `loading` to clear is not modelled. That wait polls on a 100 ms interval. `Decide` is the decision taken once loading has ended.
- The `alert(...)` notices and the mechanics of the `next` callback are out. `next` becomes the returned `Decision`.
- Matching a URL to a route and encoding the `redirect` query are not modelled, because they belong to the routing library.
- Auth.UpdateRole: the new role only travels to the backend. The reloaded profile is an input, and `SelfRoleChangeIsVisible` assumes it carries the new role.
- Auth.AuthStateChanged: calling `initialize` again registers a further listener. The model keeps one flag, so an event is applied once, not once per listener.
- Concurrency is out. This covers overlapping calls racing on the shared `loading`/`error` refs (last writer wins) and the lifetime of the auth subscription.
- Clocks and dates are out. `new Date()` readings are integer-millisecond inputs, and ISO date strings are neither parsed nor formatted. An unparsable start time, which makes JavaScript compute `NaN`, is not modelled.
- Vue/Pinia reactivity, the application bootstrap and the build configuration are out.
