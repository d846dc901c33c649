# Fitness program hierarchy backend, modelled in Dafny

This project models the backend of a fitness application where trainers build
training programs and assign them to users. A program holds training days, a
day holds exercises, and an exercise holds sets (repetitions and weight). The
backend stores them in four normalized collections. Each child keeps its
parent's id. Days keep the ordered list of their exercises' ids, and
exercises keep the ordered list of their sets' ids. The model also reads a
program's `trainingDays` as an ordered list of day ids, which is what the
day routes push onto it. The program schema declares that field differently
(see "## Left out").

The model covers the Express routers and what they do to the store:

- `/auth`: register and log in.
- `/programs`: create, assign, delete and rename a program.
- `/trainingDays`: add and delete a day.
- `/exercises`: add, delete and rename an exercise.
- `/sets`: add, delete and update a set.
- `/users/programs`: list the caller's assigned programs.

It also models the two middlewares in front of the routers: the bearer-token
check and the role gate.

## How the model is built

**Store.** The store is five immutable maps keyed by document id: users,
programs, days, exercises and sets (`Store.Store`). All of them draw ids from
one counter, because document ids are unique across collections.

**Routes.** Each route is a pure function from the store, the authenticated
caller and the request fields to a `Step`. A `Step` holds the HTTP response
(status and JSON body) and the store as the route leaves it. Each route's
contract states:

- for every status the route can answer, exactly when it answers it, in
  both directions, and the statuses it never answers;
- the body of each refusal: the validators' messages for a 400, the error
  string for a 403, 404 or 500;
- that a refused request writes nothing;
- what a successful request writes.

**Request fields.** A field absent from the request body is `None`. JSON
numbers are reals, and `isInt` is the check that the number is whole.

**Ownership.** A route finds the owning trainer by walking up the chain set →
exercise → day → program (`Store.DayOwner`, `Store.ExerciseOwner`,
`Store.SetOwner`). A link to a deleted document makes the walk fail. The route
then reads a field of `null`, the handler throws, and the catch block answers
500.

**Persistence.** The writes a route makes through the persistence layer are
store transitions in module `Models`. Two kinds of delete are kept apart:

- A query delete (`deleteMany`) runs no hook.
- A document delete (`doc.deleteOne()`) runs the model's `pre('deleteOne')`
  hook first.

**Invariant.** `Store.Valid` is the store invariant, and every route keeps it.
It requires that:

- ids are fresh;
- parent and child links agree both ways;
- no child list and no assignee list holds an id twice;
- stored fields passed their validators;
- emails are unique;
- assignees exist.

**Primitives left abstract.** Email syntax, bcrypt hashing and comparison, and
JWT signing and verification are opaque functions held in an `Env` value.

## Quirks of the code the model keeps

Each item below is how the routes behave as written, and the model
behaves the same way.

- **Duplicates are accepted.** Nothing makes `dayNumber` unique within a
  program (backend/src/routes/trainingDays.ts:42-52), or an exercise name
  unique within a day (backend/src/routes/exercises.ts:45-55). Posting the
  same day or the same exercise name twice is accepted both times
  (`TrainingDays.DuplicateDayNumberAccepted`,
  `Exercises.DuplicateExerciseNameAccepted`).
- **Deletes do not fully cascade.**
  - Deleting a program deletes nothing below it: `program.deleteOne()`
    (backend/src/routes/programs.ts:111-112) has no hook to run.
  - Deleting a day deletes its exercises with `Exercise.deleteMany`
    (backend/src/models/TrainingDay.ts:23-26), a query delete, so their own
    hook does not run and their sets stay behind with a broken chain. A
    trainer's delete, or valid update, of such a set answers 500
    (`Scenarios.OrphanedSetCannotBeDeleted`); a user-role caller still gets
    403 and an invalid update 400 first (backend/src/routes/sets.ts:80,
    backend/src/routes/sets.ts:131, backend/src/routes/sets.ts:143-147).
  - Deleting an exercise or a day leaves its id in the parent's list: neither
    route edits the parent (backend/src/routes/exercises.ts:96-97,
    backend/src/routes/trainingDays.ts:130-131).
- **The status for another trainer's record differs by route.** Program routes
  answer 404, because the lookup filters on the trainer
  (backend/src/routes/programs.ts:63-69). Day, exercise and set routes answer
  403. A missing day is answered 403 by the day routes and by
  `POST /exercises` (backend/src/routes/trainingDays.ts:123-128,
  backend/src/routes/exercises.ts:38-43).
- **A weight of 0 is accepted.** `PUT /sets/:setId` says "Weight must be a
  positive number", but its check is `isFloat({ min: 0 })`
  (backend/src/routes/sets.ts:137-140), which accepts 0.
- **The user-facing list has no role gate and no pagination.**
  `GET /users/programs` (backend/src/routes/users.ts:8-28) is open to any
  authenticated role, trainers included.
  It returns every assigned program, not a page of them.

## Model

| member | source | states |
|---|---|---|
| `Middleware.BearerToken` | backend/src/middleware/auth.ts:22-25 | The token is the second field of the header split at spaces; there is one exactly when that field exists and is non-empty, so it never contains a space; no header means no token |
| `Middleware.BearerRoundTrip` | backend/src/middleware/auth.ts:22 | `<scheme> <token>` yields the token back for any scheme word without a space |
| `Middleware.NoSpaceNoToken` | backend/src/middleware/auth.ts:22-25 | A header with no space carries no token, so the request gets 401 "No token provided" |
| `Middleware.DoubleSpaceNoToken` | backend/src/middleware/auth.ts:22-25 | Two spaces after the scheme make the second field empty, so no token is found even though one is present |
| `Middleware.Authenticate` | backend/src/middleware/auth.ts:17-34 | 401 "No token provided" without a token; 401 "Invalid token" when the verifier rejects it; otherwise the verified payload becomes the caller, and exactly then the request proceeds |
| `Middleware.Authorize` | backend/src/middleware/authorize.ts:3-10 | The caller passes unchanged exactly when its role is listed; otherwise 403 "Access denied" |
| `Middleware.TrainerGate` | backend/src/middleware/authorize.ts:5-7 | `authorize(['trainer'])` admits exactly the trainer role |
| `Store.DayOwner` | backend/src/routes/trainingDays.ts:119-127 | The walk from a day succeeds exactly when its program exists, and then yields that program's trainer |
| `Store.ExerciseOwner` | backend/src/routes/exercises.ts:78-94 | The walk from an exercise succeeds exactly when its day and that day's program exist, and then yields the program's trainer |
| `Store.SetOwner` | backend/src/routes/sets.ts:87-110 | The walk from a set succeeds exactly when its exercise, that exercise's day and the day's program all exist, and then yields the program's trainer |
| `Store.OwnershipChecksAgree` | backend/src/routes/programs.ts:63-69 | The program routes' query `findOne({ _id, trainerId })` and the day routes' walk agree: a day's walk reaches the caller exactly when the query finds the day's program for the caller |
| `Store.NextIdUnused` | backend/src/routes/sets.ts:56-62 | The next id is no document's key, is in no child list, and is no document's parent reference |
| `Models.DeleteSetsOf` | backend/src/models/Exercise.ts:24-32 | `Set.deleteMany({ exerciseId })` removes exactly the sets of that exercise and keeps every other document unchanged |
| `Models.DeleteExercisesOf` | backend/src/models/TrainingDay.ts:19-28 | `Exercise.deleteMany({ trainingDayId })` removes exactly the day's exercises and leaves all sets, their sets included |
| `Models.DeleteExerciseDocument` | backend/src/models/Exercise.ts:23-32 | Deleting an exercise document removes it and its sets, and leaves the day's list untouched |
| `Models.DeleteTrainingDayDocument` | backend/src/models/TrainingDay.ts:18-28 | Deleting a day document removes it and its exercises, but no set and no program-list entry |
| `Models.DeleteProgramDocument` | backend/src/routes/programs.ts:111-112 | Deleting a program removes that program only: Program has no delete hook |
| `Models.DeleteSetDocument` | backend/src/routes/sets.ts:117-118 | Deleting a set removes that set only |
| `Models.AppendSet` | backend/src/routes/sets.ts:55-66 | Saving a set stores it under the next id, appends that id to its exercise's list and changes no other document |
| `Models.RemoveSet` | backend/src/routes/sets.ts:112-118 | The set's exercise no longer lists it, the rest of that list is the filtered list, the set is gone, and no other document changes |
| `Models.RewriteSet` | backend/src/routes/sets.ts:180-188 | Only the set's reps and weight change; its exercise link and every other document stay |
| `Models.AppendExercise` | backend/src/routes/exercises.ts:45-55 | Saving an exercise stores it, empty, under the next id, appends that id to its day's list and changes no other document |
| `Models.RenameExercise` | backend/src/routes/exercises.ts:148-153 | Only the exercise's name changes; its day link and set list stay |
| `Models.AppendDay` | backend/src/routes/trainingDays.ts:42-52 | Saving a day stores it, empty, under the next id, appends that id to its program's list and changes no other document |
| `Models.InsertProgram` | backend/src/routes/programs.ts:30-35 | Saving a program stores it under the next id with no days and no assignees, and changes no other document |
| `Models.RenameProgram` | backend/src/routes/programs.ts:153-158 | Only the program's name changes |
| `Models.AppendAssignee` | backend/src/routes/programs.ts:77-82 | Only the program's assignee list changes, by the user appended at its end |
| `Models.InsertUser` | backend/src/routes/auth.ts:41-46 | Saving an account stores it under the next id and changes no other document |
| `Models.AppendThenRemoveSet` | backend/src/routes/sets.ts:112-118 | Unlinking and deleting the set just appended restores the exercise's list, in order, and the sets collection |
| `Models.UndoAppendSet` | backend/src/routes/sets.ts:112-118 | The same undo for any store where the next id is not yet a set and not yet listed by the exercise |
| `Models.DayCascadeOrphansSets` | backend/src/models/TrainingDay.ts:23-26 | After a day is deleted, a set of one of its exercises survives with a broken chain, unlike after its exercise is deleted |
| `Models.DeleteExerciseDocumentValid` | backend/src/models/Exercise.ts:24-32 | The exercise cascade keeps the store invariant |
| `Models.DeleteTrainingDayDocumentValid` | backend/src/models/TrainingDay.ts:19-28 | The day cascade keeps the store invariant, orphaned sets included |
| `Models.DeleteProgramDocumentValid` | backend/src/routes/programs.ts:111-112 | Deleting a program keeps the store invariant |
| `Models.AppendSetValid` | backend/src/routes/sets.ts:55-66 | Saving a set and pushing its id onto its exercise keeps the store invariant |
| `Models.AppendSetFresh` | backend/src/routes/sets.ts:56-62 | The new set takes a fresh id and all ids stay below the counter |
| `Models.AppendSetLinks` | backend/src/routes/sets.ts:64-66 | The new set and its exercise point at each other and every other link is kept |
| `Models.AppendSetShape` | backend/src/routes/sets.ts:55-66 | The exercise's list stays free of duplicates and the new set's fields satisfy their validators |
| `Models.RemoveSetValid` | backend/src/routes/sets.ts:112-118 | Filtering the set out of its exercise's list and deleting it keeps the store invariant |
| `Models.RemoveSetLinks` | backend/src/routes/sets.ts:113-118 | After the delete, no exercise lists the set and every other link is kept |
| `Models.RemoveSetShape` | backend/src/routes/sets.ts:114 | The filtered list stays free of duplicates |
| `Models.RewriteSetValid` | backend/src/routes/sets.ts:180-188 | Rewriting reps and weight with validated values keeps the store invariant |
| `Models.AppendExerciseValid` | backend/src/routes/exercises.ts:45-55 | Saving an exercise and pushing it onto its day keeps the store invariant |
| `Models.AppendExerciseFresh` | backend/src/routes/exercises.ts:46-51 | The new exercise takes a fresh id and all ids stay below the counter |
| `Models.AppendExerciseLinks` | backend/src/routes/exercises.ts:53-55 | The new exercise and its day point at each other and every other link is kept |
| `Models.AppendExerciseShape` | backend/src/routes/exercises.ts:45-55 | The day's list stays free of duplicates and the stored name is non-empty |
| `Models.RenameExerciseValid` | backend/src/routes/exercises.ts:148-153 | Renaming an exercise to a non-empty name keeps the store invariant |
| `Models.RenameExerciseLinks` | backend/src/routes/exercises.ts:149-151 | A rename moves no link |
| `Models.AppendDayValid` | backend/src/routes/trainingDays.ts:42-52 | Saving a day and pushing it onto its program keeps the store invariant |
| `Models.AppendDayFresh` | backend/src/routes/trainingDays.ts:43-48 | The new day takes a fresh id and all ids stay below the counter |
| `Models.AppendDayLinks` | backend/src/routes/trainingDays.ts:50-52 | The new day and its program point at each other and every other link is kept |
| `Models.AppendDayShape` | backend/src/routes/trainingDays.ts:42-52 | The program's list stays free of duplicates, the day number is a whole number of at least 1, and assignees are untouched |
| `Models.InsertProgramValid` | backend/src/routes/programs.ts:30-35 | Saving a new, empty program keeps the store invariant |
| `Models.InsertProgramLinks` | backend/src/routes/programs.ts:30-35 | A new program lists no days, and no existing day points at its id |
| `Models.RenameProgramValid` | backend/src/routes/programs.ts:153-158 | Renaming a program to a non-empty name keeps the store invariant |
| `Models.AppendAssigneeValid` | backend/src/routes/programs.ts:77-82 | Pushing an existing, not yet listed user keeps the store invariant |
| `Models.InsertUserValid` | backend/src/routes/auth.ts:35-46 | Saving an account whose email no account holds keeps the store invariant |
| `Sets.AddSet` | backend/src/routes/sets.ts:15-74 | Non-trainers get 403; failed validators get 400 with their messages; 404 exactly when the exercise is missing; 500 exactly when its chain is broken; 403 exactly when another trainer owns it; otherwise 201 with the new set stored and appended to its exercise, and nothing else changed |
| `Sets.DeleteSet` | backend/src/routes/sets.ts:76-126 | 404 exactly when the set is missing, 500 on a broken chain, 403 for another trainer's set; on 200 the set is gone and every occurrence of its id is filtered from its exercise's list |
| `Sets.UpdateSet` | backend/src/routes/sets.ts:128-196 | A present field must pass its validator, else 400 with the messages; then 404 exactly when the set is missing, 500 exactly when its chain is broken, 403 "Access denied" exactly when another trainer owns it; on 200 only that set changes: each given field takes the new value, each absent field keeps its old one, and the exercise link stays |
| `Sets.AddSetValid` | backend/src/routes/sets.ts:55-66 | POST /sets keeps the store invariant |
| `Sets.DeleteSetValid` | backend/src/routes/sets.ts:112-118 | DELETE /sets/:setId keeps the store invariant |
| `Sets.UpdateSetValid` | backend/src/routes/sets.ts:180-188 | PUT /sets/:setId keeps the store invariant |
| `Sets.AddThenDeleteSet` | backend/src/routes/sets.ts:112-120 | Deleting the set just added answers 200 and restores the store, except that the id stays spent |
| `Sets.DeleteSetUnlinks` | backend/src/routes/sets.ts:113-118 | In a valid store, after a delete no exercise lists the deleted set |
| `Sets.UpdateSetIdempotent` | backend/src/routes/sets.ts:180-188 | Repeating an update changes nothing further |
| `Sets.AddSetIsolation` | backend/src/routes/sets.ts:46-53 | Adding a set leaves every other trainer's tree unchanged |
| `Sets.DeleteSetIsolation` | backend/src/routes/sets.ts:103-110 | Deleting a set leaves every other trainer's tree unchanged |
| `Sets.UpdateSetIsolation` | backend/src/routes/sets.ts:171-178 | Updating a set leaves every other trainer's tree unchanged |
| `Sets.DispatchValid` | backend/src/server.ts:27 | Every `/sets` route keeps the store invariant |
| `Sets.DispatchIsolation` | backend/src/server.ts:27 | Every `/sets` route leaves other trainers' trees unchanged |
| `Sets.DispatchRefusesUsers` | backend/src/routes/sets.ts:16-19 | A user-role caller gets 403 "Access denied" from every `/sets` route and writes nothing |
| `Exercises.AddExercise` | backend/src/routes/exercises.ts:14-65 | 400 with messages on failed validators; 403 for a missing day or another trainer's day; 500 exactly when the day's program is missing; it never answers 404; on 201 the exercise is stored and appended to its day |
| `Exercises.DeleteExercise` | backend/src/routes/exercises.ts:68-105 | 404 exactly when the exercise is missing, 500 on a broken chain, 403 for another trainer's exercise; on 200 the exercise and exactly its sets are gone, and the day's list is unchanged |
| `Exercises.UpdateExercise` | backend/src/routes/exercises.ts:107-161 | An empty name gets 400; then 404 exactly when the exercise is missing, 500 exactly when its chain is broken, 403 "Access denied" exactly when another trainer owns it; on 200 only the exercise's name changes, to the given one, or to nothing new when none is given |
| `Exercises.AddExerciseValid` | backend/src/routes/exercises.ts:45-55 | POST /exercises keeps the store invariant |
| `Exercises.DeleteExerciseValid` | backend/src/routes/exercises.ts:96-97 | DELETE /exercises/:exerciseId keeps the store invariant |
| `Exercises.UpdateExerciseValid` | backend/src/routes/exercises.ts:148-153 | PUT /exercises/:exerciseId keeps the store invariant |
| `Exercises.AddThenDeleteExerciseLeavesId` | backend/src/routes/exercises.ts:96-99 | Deleting the exercise just added answers 200 and removes it, but its id stays in the day's list |
| `Exercises.DuplicateExerciseNameAccepted` | backend/src/routes/exercises.ts:45-55 | The same name posted twice to one day is accepted twice, as two distinct exercises |
| `Exercises.UpdateExerciseIdempotent` | backend/src/routes/exercises.ts:148-155 | Repeating a rename gives the same answer and changes nothing further |
| `Exercises.AddExerciseIsolation` | backend/src/routes/exercises.ts:38-43 | Adding an exercise leaves every other trainer's tree unchanged |
| `Exercises.DeleteExerciseIsolation` | backend/src/routes/exercises.ts:87-94 | Deleting an exercise leaves every other trainer's tree unchanged |
| `Exercises.UpdateExerciseIsolation` | backend/src/routes/exercises.ts:139-146 | Renaming an exercise leaves every other trainer's tree unchanged |
| `Exercises.DispatchValid` | backend/src/server.ts:26 | Every `/exercises` route keeps the store invariant |
| `Exercises.DispatchIsolation` | backend/src/server.ts:26 | Every `/exercises` route leaves other trainers' trees unchanged |
| `Exercises.DispatchRefusesUsers` | backend/src/routes/exercises.ts:14-17 | A user-role caller gets 403 from every `/exercises` route and writes nothing |
| `TrainingDays.AddTrainingDay` | backend/src/routes/trainingDays.ts:14-62 | 400 with messages on failed validators; 404 "Program not found" exactly when the program is missing or belongs to another trainer; never 500; on 201 the day is stored and appended to the program |
| `TrainingDays.DeleteTrainingDay` | backend/src/routes/trainingDays.ts:109-141 | 403 for a missing day or another trainer's day, 500 exactly when the day's program is missing, never 404; on 200 the day and exactly its exercises are gone, while sets and program lists are untouched |
| `TrainingDays.AddTrainingDayValid` | backend/src/routes/trainingDays.ts:42-52 | POST /trainingDays keeps the store invariant |
| `TrainingDays.DeleteTrainingDayValid` | backend/src/routes/trainingDays.ts:130-131 | DELETE /trainingDays/:trainingDayId keeps the store invariant |
| `TrainingDays.DuplicateDayNumberAccepted` | backend/src/routes/trainingDays.ts:42-52 | The same day number posted twice to one program is accepted twice, as two distinct days |
| `TrainingDays.DeleteTrainingDayOrphansSets` | backend/src/models/TrainingDay.ts:23-26 | A set under a deleted day survives, and its chain is broken |
| `TrainingDays.DeleteTrainingDayLeavesId` | backend/src/routes/trainingDays.ts:130-131 | The program still lists the deleted day's id |
| `TrainingDays.AddTrainingDayIsolation` | backend/src/routes/trainingDays.ts:33-40 | Adding a day leaves every other trainer's tree unchanged |
| `TrainingDays.DeleteTrainingDayIsolation` | backend/src/routes/trainingDays.ts:123-128 | Deleting a day leaves every other trainer's tree unchanged |
| `TrainingDays.DispatchValid` | backend/src/server.ts:25 | Every `/trainingDays` route keeps the store invariant |
| `TrainingDays.DispatchIsolation` | backend/src/server.ts:25 | Every `/trainingDays` route leaves other trainers' trees unchanged |
| `TrainingDays.DispatchRefusesUsers` | backend/src/routes/trainingDays.ts:14-17 | A user-role caller gets 403 from every `/trainingDays` route and writes nothing |
| `Programs.CreateProgram` | backend/src/routes/programs.ts:14-42 | 400 "Program name is required" without a name; on 201 a new, empty program owned by the caller is stored and nothing else changes |
| `Programs.AssignProgram` | backend/src/routes/programs.ts:45-90 | 400 without a user id; 404 "Program not found" unless the caller owns the program, then 404 "User not found" for an unknown user; on 200 the user is appended only if not yet listed |
| `Programs.DeleteProgram` | backend/src/routes/programs.ts:93-120 | 404 unless the caller owns the program; on 200 exactly that program is removed |
| `Programs.UpdateProgram` | backend/src/routes/programs.ts:122-166 | An empty name gets 400; 404 unless the caller owns the program; on 200 only the program's name changes, to the given one if any |
| `Programs.CreateProgramValid` | backend/src/routes/programs.ts:30-35 | POST /programs keeps the store invariant |
| `Programs.AssignProgramValid` | backend/src/routes/programs.ts:77-82 | POST /programs/:programId/assign keeps the store invariant |
| `Programs.DeleteProgramValid` | backend/src/routes/programs.ts:111-112 | DELETE /programs/:programId keeps the store invariant |
| `Programs.UpdateProgramValid` | backend/src/routes/programs.ts:153-158 | PUT /programs/:programId keeps the store invariant |
| `Programs.AssignProgramIdempotent` | backend/src/routes/programs.ts:77-84 | A repeated assignment answers the same and changes nothing |
| `Programs.AssignedExactlyOnce` | backend/src/routes/programs.ts:77-82 | In a valid store, after a successful assignment the user is listed exactly once |
| `Programs.CreateThenDeleteProgram` | backend/src/routes/programs.ts:103-114 | Deleting the program just created answers 200 and restores the store, except that the id stays spent |
| `Programs.DeleteProgramOrphansDays` | backend/src/routes/programs.ts:111-112 | The deleted program's days stay, unchanged, with a broken chain |
| `Programs.CreateProgramIsolation` | backend/src/routes/programs.ts:30-35 | Creating a program leaves every other trainer's tree unchanged |
| `Programs.AssignProgramIsolation` | backend/src/routes/programs.ts:63-69 | Assigning leaves every other trainer's tree unchanged |
| `Programs.DeleteProgramIsolation` | backend/src/routes/programs.ts:103-109 | Deleting a program leaves every other trainer's tree unchanged |
| `Programs.UpdateProgramIsolation` | backend/src/routes/programs.ts:145-151 | Renaming a program leaves every other trainer's tree unchanged |
| `Programs.DispatchValid` | backend/src/server.ts:24 | Every `/programs` route keeps the store invariant |
| `Programs.DispatchIsolation` | backend/src/server.ts:24 | Every `/programs` route leaves other trainers' trees unchanged |
| `Programs.DispatchRefusesUsers` | backend/src/routes/programs.ts:14-17 | A user-role caller gets 403 from every `/programs` route and writes nothing |
| `Users.AssignedPrograms` | backend/src/routes/users.ts:13 | `Program.find({ assignedUsers: userId })` holds exactly the programs listing the user, as stored |
| `Users.ListAssignedPrograms` | backend/src/routes/users.ts:13 | A scan of the programs collection collects exactly the programs that list the user, and agrees with the query |
| `Users.GetPrograms` | backend/src/routes/users.ts:8-28 | Any authenticated caller gets 200 with exactly the programs that list it, and nothing is written |
| `Users.AssignThenListed` | backend/src/routes/users.ts:13 | After a successful assignment the assignee's list shows the program, whatever the assignee's role |
| `Users.DeleteThenUnlisted` | backend/src/routes/users.ts:13 | After a program is deleted, no caller's list shows it |
| `AuthRoutes.RoleName` | backend/src/models/User.ts:6 | Every role has one of the two names `'trainer'` and `'user'` |
| `AuthRoutes.ParseRole` | backend/src/routes/auth.ts:21-24 | A role is accepted exactly when it is `'trainer'` or `'user'`, and it is the role of that name |
| `AuthRoutes.RoleNameRoundTrip` | backend/src/routes/auth.ts:21-24 | The name of a role parses back to that role |
| `AuthRoutes.FindByEmail` | backend/src/routes/auth.ts:35-38 | `User.findOne({ email })` finds an account holding the email, the first in id order; finding none means no account below the counter holds it |
| `AuthRoutes.FindFrom` | backend/src/routes/auth.ts:35 | The lookup yields the lowest id whose account holds the email; None means no account in range holds it |
| `AuthRoutes.FindByEmailExact` | backend/src/models/User.ts:10 | In a valid store, the lookup finds an account exactly when that account holds the email |
| `AuthRoutes.Register` | backend/src/routes/auth.ts:13-53 | 400 with messages on failed validators; 400 "Email already in use" for a known email; otherwise 201 with the account stored under the password's hash, and only the users collection written |
| `AuthRoutes.Login` | backend/src/routes/auth.ts:56-100 | Never writes; 400 with messages on failed validators; 400 "Invalid email or password" for an unknown email or a rejected password; otherwise 200 with a token signed over the account's id and role |
| `AuthRoutes.RegisterValid` | backend/src/routes/auth.ts:35-46 | Registration keeps the store invariant, unique emails included |
| `AuthRoutes.RegisterThenLogin` | backend/src/routes/auth.ts:73-95 | A just-registered account can log in with its password and receives a token for its own id and role |
| `AuthRoutes.RegisterTwiceRefused` | backend/src/routes/auth.ts:35-38 | A second registration with the same email gets 400 "Email already in use" and writes nothing |
| `AuthRoutes.WrongPasswordLikeUnknownEmail` | backend/src/routes/auth.ts:73-82 | A wrong password and an unknown email get identical answers |
| `AuthRoutes.DispatchValid` | backend/src/server.ts:23 | Both `/auth` routes keep the store invariant |
| `AuthRoutes.DispatchLeavesHierarchy` | backend/src/routes/auth.ts:13-100 | Neither `/auth` route touches programs, days, exercises or sets |
| `Server.Handle` | backend/src/server.ts:23-28 | `/auth` requests go straight to their router; every other request gets the middleware's 401, with no write, or runs as the authenticated caller |
| `Server.RouteValid` | backend/src/server.ts:24-28 | Every protected route keeps the store invariant |
| `Server.HandleValid` | backend/src/server.ts:23-28 | Every request keeps the store invariant |
| `Server.NoTokenNoEffect` | backend/src/middleware/auth.ts:22-25 | A protected request without a usable token gets 401 "No token provided" and writes nothing |
| `Server.UserRoleCannotWrite` | backend/src/middleware/authorize.ts:5-7 | A user-role caller writes nothing, and gets 403 from every route except its program list |
| `Server.RouteIsolation` | backend/src/server.ts:24-28 | Every protected route leaves the trees of trainers other than the caller unchanged |
| `Server.HandleIsolation` | backend/src/server.ts:23-28 | Every request leaves the trees of trainers other than the authenticated caller unchanged |
| `Server.AuthenticatedRoute` | backend/src/middleware/auth.ts:27-33 | A protected request whose bearer token the verifier accepts runs its route as the verified payload |
| `Server.LoginTokenAuthenticates` | backend/src/routes/auth.ts:85-95 | The token from a login, sent as `Bearer <token>`, runs a protected request as the logged-in account, provided the verifier accepts the signer's output and the token has no space |
| `Scenarios.RegisterStep` | backend/src/routes/auth.ts:44-48 | In a fresh backend, the first registration gets 201 and id 0 |
| `Scenarios.LoginStep` | backend/src/routes/auth.ts:73-95 | That account logs in and gets a trainer token for id 0 |
| `Scenarios.CreateStep` | backend/src/routes/programs.ts:30-36 | Its first program gets id 1 |
| `Scenarios.AddDayStep` | backend/src/routes/trainingDays.ts:42-56 | Day 1 of that program gets id 2 and is listed by it |
| `Scenarios.AddExerciseStep` | backend/src/routes/exercises.ts:45-59 | The exercise gets id 3 and is listed by the day |
| `Scenarios.AddSetStep` | backend/src/routes/sets.ts:55-68 | The set gets id 4 and is listed by the exercise |
| `Scenarios.BuildOneProgram` | backend/src/server.ts:23-27 | Register, log in, then create a program, day, exercise and set: every step is accepted, and the store holds exactly that tree, linked both ways |
| `Scenarios.AssignToOneUser` | backend/src/routes/programs.ts:77-84 | After an assignment the assignee's list shows the program and another user's does not |
| `Scenarios.OrphanedSetCannotBeDeleted` | backend/src/routes/sets.ts:107 | Once a day is deleted, deleting a set below it walks a broken chain and answers 500 with no write |
| `Common.RemoveAll` | backend/src/routes/sets.ts:114 | Filtering keeps exactly the elements other than the id and never grows the list |
| `Common.RemoveAllConcat` | backend/src/routes/sets.ts:114 | Filtering distributes over concatenation, so the kept elements stay in their relative order |
| `Common.RemoveAllNoDuplicates` | backend/src/routes/sets.ts:114 | Filtering a duplicate-free list keeps it duplicate-free |
| `Common.RemoveSingle` | backend/src/routes/sets.ts:114 | Filtering an id listed once removes just that entry |
| `Common.Split` | backend/src/middleware/auth.ts:22 | `split(' ')` yields at least one field, no field contains the separator, and joining the fields gives back the input |
| `Common.SplitJoin` | backend/src/middleware/auth.ts:22 | Splitting the join of separator-free fields gives back those fields |
| `Common.CountNoDuplicates` | backend/src/routes/programs.ts:79 | A duplicate-free list holds any value at most once |

## Left out

- The frontend, the server start-up and its environment configuration,
  CORS, and body parsing are not modelled.
- bcrypt and JWT internals, including the token's one-hour expiry, are
  modelled only as abstract functions in `Env`. A token expires exactly when
  `env.verify` starts rejecting it.
- Parsing ids from strings is not modelled. Mongoose raises a `CastError`
  for a malformed ObjectId, which the catch blocks answer with 500. In the
  model, ids are already-parsed numbers, one spelling per id. In the code,
  a `setId` written in upper-case hex passes `findById`, but the filter
  `id.toString() !== setId` (backend/src/routes/sets.ts:114) compares it
  with the lower-case spelling and keeps it. The exercise then keeps listing
  the deleted set. The model always unlinks it.
- AuthRoutes.Register: its password check counts every Unicode scalar value,
  as `isLength({ min: 6 })` (backend/src/routes/auth.ts:18-20) does for
  astral characters. It differs in two places. `isLength` does not count the
  variation selectors U+FE0E and U+FE0F, so `"abcde\u{FE0F}"` is 5
  characters there (400) and 6 in the model (201). A JSON body can also
  carry a lone surrogate, which a Dafny string cannot hold.
- JSON bodies are modelled only as well-typed fields: present with the right
  type, or absent. The model does not cover strings where numbers are
  expected, `null`, numbers sent as strings, or express-validator's string
  coercion in `isInt`/`isFloat`.
- Response bodies carry the saved document's id rather than the document,
  and `GET /users/programs` returns the matching programs keyed by id. It
  does not return them in query order with their days, exercises and sets
  populated.
- Failures of the database itself are not modelled. The model does not cover
  a failed `save()`, a connection error, or the unique-email index rejecting
  a racing registration.
- Interleavings are not modelled. Each request runs alone, and its writes
  take effect together. In the code, a crash between saving a child and
  pushing it onto its parent would leave an unlisted child.
- The commented-out training-day removal route is not modelled, because it
  is not mounted.
- TrainingDays.AddTrainingDay: the model answers 201 and appends the new
  day's id to `program.trainingDays`. It reads that field as a list of day
  ids, following the push of `trainingDay._id`
  (backend/src/routes/trainingDays.ts:51). But `models/Program.ts`, which the
  program, day and user routes import, declares `trainingDays` as an array
  of embedded training-day subdocuments. In those subdocuments `dayNumber` is
  required (backend/src/models/Program.ts:41-49). Mongoose likely casts the
  pushed id into a subdocument `{ _id: <id> }` with no `dayNumber`. If so,
  `program.save()` (backend/src/routes/trainingDays.ts:52) fails validation.
  The catch block (backend/src/routes/trainingDays.ts:57-59) then answers
  500 "Server error", after the TrainingDay document was already saved at
  line 48. The code as written would then never answer 201 to this route,
  and no program would list a day. This is read from the schema; the casting
  rules of Mongoose are not modelled.
- The `'user'` default of the User model's role
  (backend/src/models/User.ts:12) is not modelled. It takes effect only when
  the body carries no `role` and the role validator still passes, which
  needs a `role` sent outside the body (see the next line).
- Request fields are read from the JSON body only. express-validator's
  `check()` (for example backend/src/routes/auth.ts:17-24 and
  backend/src/routes/sets.ts:132-141) looks up a field in the body, cookies,
  headers, params and query. The handlers read only `req.body`. The model
  validates and uses the same body value. Two examples the model does not
  cover:
  - `POST /auth/register?role=trainer` with no `role` in the body passes
    `isIn` in the code, and the user gets the default `'user'` role with
    201. The model answers 400.
  - `PUT /sets/:setId?reps=0` with body `{}` gets 400 in the code. The model
    answers 200 and writes nothing.
- Every 500 body outside `/auth` also carries `details: err.message` (for example
  backend/src/routes/sets.ts:71, backend/src/routes/exercises.ts:62,
  backend/src/routes/programs.ts:39, backend/src/routes/trainingDays.ts:59,
  backend/src/routes/users.ts:26). The model's 500 body is the error string
  alone, because the exception text depends on Mongoose internals.
- A 400 from the validators is `{ errors: errors.array() }`
  (backend/src/routes/auth.ts:29). Each entry of that list is an object with
  `msg`, `path`, `location`, `value` and `type`. The model keeps only the
  list of `msg` strings, in order.
