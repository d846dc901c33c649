/** The `/exercises` routes: add an exercise to a training day, delete an
    exercise with its sets, rename an exercise. */
module Exercises {
  import opened Common
  import opened Store
  import opened Http
  import opened Middleware
  import Models

  /** Messages of the failing POST validators, in declaration order. */
  function AddExerciseErrors(trainingDayId: Option<Id>, name: Option<string>): seq<string>
  {
    (if trainingDayId.Some? then [] else ["TrainingDay ID is required"])
    + (if NonEmpty(name) then [] else ["Exercise name is required"])
  }

  /** POST /exercises. A missing training day and another trainer's day
      get the same 403. */
  function AddExercise(s: Store, caller: Payload, trainingDayId: Option<Id>, name: Option<string>): (r: Step)
    ensures caller.role != Trainer ==> r == Halt(s, Forbidden, "Access denied")
    ensures caller.role == Trainer && !(trainingDayId.Some? && NonEmpty(name)) ==>
              r == Reject(s, AddExerciseErrors(trainingDayId, name)) && AddExerciseErrors(trainingDayId, name) != []
    ensures caller.role == Trainer && trainingDayId.Some? && NonEmpty(name) && trainingDayId.value !in s.days ==>
              r == Halt(s, Forbidden, "Access denied")
    ensures r.response.status != NotFound
    ensures r.response.status == ServerError <==>
              caller.role == Trainer && trainingDayId.Some? && NonEmpty(name) && trainingDayId.value in s.days
              && DayOwner(s, trainingDayId.value).None?
    ensures r.response.status == ServerError ==> r.response.body == Error("Server error")
    ensures r.response.status == Forbidden <==>
              caller.role != Trainer
              || (trainingDayId.Some? && NonEmpty(name)
                  && (trainingDayId.value !in s.days
                      || (DayOwner(s, trainingDayId.value).Some? && DayOwner(s, trainingDayId.value).value != caller.id)))
    ensures r.response.status == Forbidden ==> r.response.body == Error("Access denied")
    ensures r.response.status == Created <==>
              caller.role == Trainer && trainingDayId.Some? && NonEmpty(name) && trainingDayId.value in s.days
              && DayOwner(s, trainingDayId.value) == Some(caller.id)
    ensures r.response.status != Created ==> r.store == s
    ensures r.response.status == Created ==>
              var d := trainingDayId.value;
              && r.response.body == Saved("Exercise added to training day", s.nextId)
              && r.store.exercises == s.exercises[s.nextId := Exercise(d, name.value, [])]
              && r.store.days == s.days[d := s.days[d].(exercises := s.days[d].exercises + [s.nextId])]
              && r.store.users == s.users && r.store.programs == s.programs && r.store.sets == s.sets
              && r.store.nextId == s.nextId + 1
  {
    match Authorize([Trainer], caller)
    case Stop(denied) => Step(denied, s)
    case Next(_) =>
      var errors := AddExerciseErrors(trainingDayId, name);
      if errors != [] then Reject(s, errors)
      else
        var d := trainingDayId.value;
        if d !in s.days then Halt(s, Forbidden, "Access denied")
        else
          match DayOwner(s, d)
          case None => Crash(s)
          case Some(trainer) =>
            if trainer != caller.id then Halt(s, Forbidden, "Access denied")
            else
              Step(Response(Created, Saved("Exercise added to training day", s.nextId)),
                   Models.AppendExercise(s, d, name.value))
  }

  /** DELETE /exercises/:exerciseId: the exercise document is deleted, so
      its hook deletes its sets. */
  function DeleteExercise(s: Store, caller: Payload, exerciseId: Id): (r: Step)
    ensures caller.role != Trainer ==> r == Halt(s, Forbidden, "Access denied")
    ensures r.response.status == NotFound <==> caller.role == Trainer && exerciseId !in s.exercises
    ensures r.response.status == NotFound ==> r.response.body == Error("Exercise not found")
    ensures r.response.status == ServerError <==>
              caller.role == Trainer && exerciseId in s.exercises && ExerciseOwner(s, exerciseId).None?
    ensures r.response.status == ServerError ==> r.response.body == Error("Server error")
    ensures r.response.status == Forbidden <==>
              caller.role != Trainer
              || (exerciseId in s.exercises && ExerciseOwner(s, exerciseId).Some?
                  && ExerciseOwner(s, exerciseId).value != caller.id)
    ensures r.response.status == Forbidden ==> r.response.body == Error("Access denied")
    ensures r.response.status == Ok <==>
              caller.role == Trainer && exerciseId in s.exercises && ExerciseOwner(s, exerciseId) == Some(caller.id)
    ensures r.response.status != Ok ==> r.store == s
    ensures r.response.status == Ok ==>
              && r.response.body == Message("Exercise and associated sets deleted successfully")
              && r.store.exercises == s.exercises - {exerciseId}
              && (forall x :: x in r.store.sets <==> x in s.sets && s.sets[x].exerciseId != exerciseId)
              && (forall x :: x in r.store.sets ==> r.store.sets[x] == s.sets[x])
              && r.store.days == s.days
              && r.store.users == s.users && r.store.programs == s.programs && r.store.nextId == s.nextId
  {
    match Authorize([Trainer], caller)
    case Stop(denied) => Step(denied, s)
    case Next(_) =>
      if exerciseId !in s.exercises then Halt(s, NotFound, "Exercise not found")
      else
        match ExerciseOwner(s, exerciseId)
        case None => Crash(s)
        case Some(trainer) =>
          if trainer != caller.id then Halt(s, Forbidden, "Access denied")
          else
            Step(Response(Ok, Message("Exercise and associated sets deleted successfully")),
                 Models.DeleteExerciseDocument(s, exerciseId))
  }

  /** PUT /exercises/:exerciseId: an empty name is refused, an absent one
      leaves the exercise as it was. */
  function UpdateExercise(s: Store, caller: Payload, exerciseId: Id, name: Option<string>): (r: Step)
    ensures caller.role != Trainer ==> r == Halt(s, Forbidden, "Access denied")
    ensures caller.role == Trainer && name == Some("") ==>
              r == Reject(s, ["Exercise name cannot be empty"])
    ensures r.response.status == NotFound <==>
              caller.role == Trainer && name != Some("") && exerciseId !in s.exercises
    ensures r.response.status == NotFound ==> r.response.body == Error("Exercise not found")
    ensures r.response.status == ServerError <==>
              caller.role == Trainer && name != Some("") && exerciseId in s.exercises
              && ExerciseOwner(s, exerciseId).None?
    ensures r.response.status == ServerError ==> r.response.body == Error("Server error")
    ensures r.response.status == Forbidden <==>
              caller.role != Trainer
              || (name != Some("") && exerciseId in s.exercises && ExerciseOwner(s, exerciseId).Some?
                  && ExerciseOwner(s, exerciseId).value != caller.id)
    ensures r.response.status == Forbidden ==> r.response.body == Error("Access denied")
    ensures r.response.status == Ok <==>
              caller.role == Trainer && name != Some("") && exerciseId in s.exercises
              && ExerciseOwner(s, exerciseId) == Some(caller.id)
    ensures r.response.status != Ok || name.None? ==> r.store == s
    ensures r.response.status == Ok ==>
              && r.response.body == Saved("Exercise updated successfully", exerciseId)
              && exerciseId in r.store.exercises
              && r.store == s.(exercises := s.exercises[exerciseId := r.store.exercises[exerciseId]])
              && r.store.exercises[exerciseId].name == name.GetOr(s.exercises[exerciseId].name)
              && r.store.exercises[exerciseId].trainingDayId == s.exercises[exerciseId].trainingDayId
              && r.store.exercises[exerciseId].sets == s.exercises[exerciseId].sets
  {
    match Authorize([Trainer], caller)
    case Stop(denied) => Step(denied, s)
    case Next(_) =>
      if name == Some("") then Reject(s, ["Exercise name cannot be empty"])
      else if exerciseId !in s.exercises then Halt(s, NotFound, "Exercise not found")
      else
        match ExerciseOwner(s, exerciseId)
        case None => Crash(s)
        case Some(trainer) =>
          if trainer != caller.id then Halt(s, Forbidden, "Access denied")
          else
            var renamed := if name.Some? then Models.RenameExercise(s, exerciseId, name.value) else s;
            Step(Response(Ok, Saved("Exercise updated successfully", exerciseId)), renamed)
  }

  // Properties relating the three routes and the store invariant.

  lemma AddExerciseValid(s: Store, caller: Payload, trainingDayId: Option<Id>, name: Option<string>)
    requires Valid(s)
    ensures Valid(AddExercise(s, caller, trainingDayId, name).store)
  {
    if AddExercise(s, caller, trainingDayId, name).response.status == Created {
      Models.AppendExerciseValid(s, trainingDayId.value, name.value);
    }
  }

  lemma DeleteExerciseValid(s: Store, caller: Payload, exerciseId: Id)
    requires Valid(s)
    ensures Valid(DeleteExercise(s, caller, exerciseId).store)
  {
    if DeleteExercise(s, caller, exerciseId).response.status == Ok {
      Models.DeleteExerciseDocumentValid(s, exerciseId);
    }
  }

  lemma UpdateExerciseValid(s: Store, caller: Payload, exerciseId: Id, name: Option<string>)
    requires Valid(s)
    ensures Valid(UpdateExercise(s, caller, exerciseId, name).store)
  {
    if UpdateExercise(s, caller, exerciseId, name).response.status == Ok && name.Some? {
      Models.RenameExerciseValid(s, exerciseId, name.value);
    }
  }

  /** Deleting the exercise just added removes it, but its id stays in the
      training day's `exercises` list: the route never edits that list. */
  lemma AddThenDeleteExerciseLeavesId(s: Store, caller: Payload, trainingDayId: Option<Id>, name: Option<string>)
    requires Valid(s)
    requires AddExercise(s, caller, trainingDayId, name).response.status == Created
    ensures var s1 := AddExercise(s, caller, trainingDayId, name).store;
            var r := DeleteExercise(s1, caller, s.nextId);
            && r.response.status == Ok
            && s.nextId !in r.store.exercises
            && r.store.days[trainingDayId.value].exercises == s.days[trainingDayId.value].exercises + [s.nextId]
  {
    var s1 := AddExercise(s, caller, trainingDayId, name).store;
    assert ExerciseOwner(s1, s.nextId) == DayOwner(s, trainingDayId.value);
  }

  /** Exercise names are not unique within a day: posting the same name
      twice is accepted both times. */
  lemma DuplicateExerciseNameAccepted(s: Store, caller: Payload, trainingDayId: Option<Id>, name: Option<string>)
    requires Valid(s)
    requires AddExercise(s, caller, trainingDayId, name).response.status == Created
    ensures var s1 := AddExercise(s, caller, trainingDayId, name).store;
            var r := AddExercise(s1, caller, trainingDayId, name);
            && r.response.status == Created
            && s.nextId in r.store.exercises && s1.nextId in r.store.exercises && s.nextId != s1.nextId
            && r.store.exercises[s.nextId].trainingDayId == r.store.exercises[s1.nextId].trainingDayId
            && r.store.exercises[s.nextId].name == r.store.exercises[s1.nextId].name == name.value
  {
    var s1 := AddExercise(s, caller, trainingDayId, name).store;
    assert DayOwner(s1, trainingDayId.value) == DayOwner(s, trainingDayId.value);
  }

  /** Repeating a rename changes nothing further. */
  lemma UpdateExerciseIdempotent(s: Store, caller: Payload, exerciseId: Id, name: Option<string>)
    requires UpdateExercise(s, caller, exerciseId, name).response.status == Ok
    ensures var s1 := UpdateExercise(s, caller, exerciseId, name).store;
            UpdateExercise(s1, caller, exerciseId, name) == UpdateExercise(s, caller, exerciseId, name)
  {
    var s1 := UpdateExercise(s, caller, exerciseId, name).store;
    assert ExerciseOwner(s1, exerciseId) == ExerciseOwner(s, exerciseId);
  }

  lemma AddExerciseIsolation(s: Store, caller: Payload, trainingDayId: Option<Id>, name: Option<string>, trainer: Id)
    requires IdsFresh(s) && trainer != caller.id
    ensures TreeUnchanged(s, AddExercise(s, caller, trainingDayId, name).store, trainer)
  {
    NextIdUnused(s);
  }

  lemma DeleteExerciseIsolation(s: Store, caller: Payload, exerciseId: Id, trainer: Id)
    requires trainer != caller.id
    ensures TreeUnchanged(s, DeleteExercise(s, caller, exerciseId).store, trainer)
  {
  }

  lemma UpdateExerciseIsolation(s: Store, caller: Payload, exerciseId: Id, name: Option<string>, trainer: Id)
    requires trainer != caller.id
    ensures TreeUnchanged(s, UpdateExercise(s, caller, exerciseId, name).store, trainer)
  {
  }

  // The router: `app.use('/exercises', exercisesRoutes)`.

  /** The requests the `/exercises` router answers. */
  datatype Request =
    | Add(trainingDayId: Option<Id>, name: Option<string>)  // POST /exercises
    | Delete(exerciseId: Id)                               // DELETE /exercises/:exerciseId
    | Update(exerciseId: Id, name: Option<string>)         // PUT /exercises/:exerciseId

  function Dispatch(s: Store, caller: Payload, req: Request): Step
  {
    match req
    case Add(d, name) => AddExercise(s, caller, d, name)
    case Delete(e) => DeleteExercise(s, caller, e)
    case Update(e, name) => UpdateExercise(s, caller, e, name)
  }

  lemma DispatchValid(s: Store, caller: Payload, req: Request)
    requires Valid(s)
    ensures Valid(Dispatch(s, caller, req).store)
  {
    match req
    case Add(d, name) => AddExerciseValid(s, caller, d, name);
    case Delete(e) => DeleteExerciseValid(s, caller, e);
    case Update(e, name) => UpdateExerciseValid(s, caller, e, name);
  }

  lemma DispatchIsolation(s: Store, caller: Payload, req: Request, trainer: Id)
    requires IdsFresh(s) && trainer != caller.id
    ensures TreeUnchanged(s, Dispatch(s, caller, req).store, trainer)
  {
    match req
    case Add(d, name) => AddExerciseIsolation(s, caller, d, name, trainer);
    case Delete(e) => DeleteExerciseIsolation(s, caller, e, trainer);
    case Update(e, name) => UpdateExerciseIsolation(s, caller, e, name, trainer);
  }

  /** Every route of the router is for trainers only. */
  lemma DispatchRefusesUsers(s: Store, caller: Payload, req: Request)
    requires caller.role == User
    ensures Dispatch(s, caller, req) == Step(Response(Forbidden, Error("Access denied")), s)
  {
  }
}
