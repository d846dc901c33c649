/** The `/sets` routes: add a set to an exercise, delete a set, update a
    set. Each runs the trainer gate, the validators, then walks the chain
    Set -> Exercise -> TrainingDay -> Program to the owning trainer. */
module Sets {
  import opened Common
  import opened Store
  import opened Http
  import opened Middleware
  import Models

  /** Messages of the failing POST validators, in declaration order. */
  function AddSetErrors(exerciseId: Option<Id>, reps: Option<real>, weight: Option<real>): seq<string>
  {
    (if exerciseId.Some? then [] else ["Exercise ID is required"])
    + (if reps.Some? && RepsOk(reps.value) then [] else ["Reps are required"])
    + (if weight.Some? && WeightOk(weight.value) then [] else ["Weight is required"])
  }

  predicate AddSetFieldsOk(exerciseId: Option<Id>, reps: Option<real>, weight: Option<real>) {
    exerciseId.Some? && reps.Some? && RepsOk(reps.value) && weight.Some? && WeightOk(weight.value)
  }

  /** POST /sets */
  function AddSet(s: Store, caller: Payload, exerciseId: Option<Id>, reps: Option<real>, weight: Option<real>): (r: Step)
    ensures caller.role != Trainer ==> r == Halt(s, Forbidden, "Access denied")
    ensures caller.role == Trainer && !AddSetFieldsOk(exerciseId, reps, weight) ==>
              r == Reject(s, AddSetErrors(exerciseId, reps, weight)) && AddSetErrors(exerciseId, reps, weight) != []
    ensures r.response.status == NotFound <==>
              caller.role == Trainer && AddSetFieldsOk(exerciseId, reps, weight) && exerciseId.value !in s.exercises
    ensures r.response.status == NotFound ==> r.response.body == Error("Exercise not found")
    ensures r.response.status == ServerError <==>
              caller.role == Trainer && AddSetFieldsOk(exerciseId, reps, weight) && exerciseId.value in s.exercises
              && ExerciseOwner(s, exerciseId.value).None?
    ensures r.response.status == ServerError ==> r.response.body == Error("Server error")
    ensures r.response.status == Forbidden <==>
              caller.role != Trainer
              || (AddSetFieldsOk(exerciseId, reps, weight) && exerciseId.value in s.exercises
                  && ExerciseOwner(s, exerciseId.value).Some? && ExerciseOwner(s, exerciseId.value).value != caller.id)
    ensures r.response.status == Forbidden ==> r.response.body == Error("Access denied")
    ensures r.response.status == Created <==>
              caller.role == Trainer && AddSetFieldsOk(exerciseId, reps, weight) && exerciseId.value in s.exercises
              && ExerciseOwner(s, exerciseId.value) == Some(caller.id)
    ensures r.response.status != Created ==> r.store == s
    ensures r.response.status == Created ==>
              var e := exerciseId.value;
              && r.response.body == Saved("Set added to exercise", s.nextId)
              && r.store.sets == s.sets[s.nextId := WorkSet(e, reps.value, weight.value)]
              && r.store.exercises == s.exercises[e := s.exercises[e].(sets := s.exercises[e].sets + [s.nextId])]
              && r.store.users == s.users && r.store.programs == s.programs && r.store.days == s.days
              && r.store.nextId == s.nextId + 1
  {
    match Authorize([Trainer], caller)
    case Stop(denied) => Step(denied, s)
    case Next(_) =>
      var errors := AddSetErrors(exerciseId, reps, weight);
      if errors != [] then Reject(s, errors)
      else
        var e := exerciseId.value;
        if e !in s.exercises then Halt(s, NotFound, "Exercise not found")
        else
          match ExerciseOwner(s, e)
          case None => Crash(s)
          case Some(trainer) =>
            if trainer != caller.id then Halt(s, Forbidden, "Access denied")
            else
              Step(Response(Created, Saved("Set added to exercise", s.nextId)),
                   Models.AppendSet(s, e, reps.value, weight.value))
  }

  /** DELETE /sets/:setId */
  function DeleteSet(s: Store, caller: Payload, setId: Id): (r: Step)
    ensures caller.role != Trainer ==> r == Halt(s, Forbidden, "Access denied")
    ensures r.response.status == NotFound <==> caller.role == Trainer && setId !in s.sets
    ensures r.response.status == NotFound ==> r.response.body == Error("Set not found")
    ensures r.response.status == ServerError <==>
              caller.role == Trainer && setId in s.sets && SetOwner(s, setId).None?
    ensures r.response.status == ServerError ==> r.response.body == Error("Server error")
    ensures r.response.status == Forbidden <==>
              caller.role != Trainer
              || (setId in s.sets && SetOwner(s, setId).Some? && SetOwner(s, setId).value != caller.id)
    ensures r.response.status == Forbidden ==> r.response.body == Error("Access denied")
    ensures r.response.status == Ok <==>
              caller.role == Trainer && setId in s.sets && SetOwner(s, setId) == Some(caller.id)
    ensures r.response.status != Ok ==> r.store == s
    ensures r.response.status == Ok ==>
              var e := s.sets[setId].exerciseId;
              && r.response.body == Message("Set deleted successfully")
              && r.store.sets == s.sets - {setId}
              && r.store.exercises == s.exercises[e := s.exercises[e].(sets := RemoveAll(s.exercises[e].sets, setId))]
              && r.store.users == s.users && r.store.programs == s.programs && r.store.days == s.days
              && r.store.nextId == s.nextId
  {
    match Authorize([Trainer], caller)
    case Stop(denied) => Step(denied, s)
    case Next(_) =>
      if setId !in s.sets then Halt(s, NotFound, "Set not found")
      else
        match SetOwner(s, setId)
        case None => Crash(s)
        case Some(trainer) =>
          if trainer != caller.id then Halt(s, Forbidden, "Access denied")
          else
            Step(Response(Ok, Message("Set deleted successfully")), Models.RemoveSet(s, setId))
  }

  /** Messages of the failing PUT validators; absent fields are skipped. */
  function UpdateSetErrors(reps: Option<real>, weight: Option<real>): seq<string>
  {
    (if reps.None? || RepsOk(reps.value) then [] else ["Reps must be at least 1"])
    + (if weight.None? || WeightOk(weight.value) then [] else ["Weight must be a positive number"])
  }

  /** PUT /sets/:setId: a partial update of reps and weight. */
  function UpdateSet(s: Store, caller: Payload, setId: Id, reps: Option<real>, weight: Option<real>): (r: Step)
    ensures caller.role != Trainer ==> r == Halt(s, Forbidden, "Access denied")
    ensures caller.role == Trainer && ((reps.Some? && !RepsOk(reps.value)) || (weight.Some? && !WeightOk(weight.value))) ==>
              r == Reject(s, UpdateSetErrors(reps, weight)) && UpdateSetErrors(reps, weight) != []
    ensures r.response.status == NotFound <==>
              caller.role == Trainer && UpdateSetErrors(reps, weight) == [] && setId !in s.sets
    ensures r.response.status == NotFound ==> r.response.body == Error("Set not found")
    ensures r.response.status == ServerError <==>
              caller.role == Trainer && UpdateSetErrors(reps, weight) == [] && setId in s.sets
              && SetOwner(s, setId).None?
    ensures r.response.status == ServerError ==> r.response.body == Error("Server error")
    ensures r.response.status == Forbidden <==>
              caller.role != Trainer
              || (UpdateSetErrors(reps, weight) == [] && setId in s.sets && SetOwner(s, setId).Some?
                  && SetOwner(s, setId).value != caller.id)
    ensures r.response.status == Forbidden ==> r.response.body == Error("Access denied")
    ensures r.response.status == Ok <==>
              caller.role == Trainer && UpdateSetErrors(reps, weight) == []
              && setId in s.sets && SetOwner(s, setId) == Some(caller.id)
    ensures r.response.status != Ok ==> r.store == s
    ensures r.response.status == Ok ==>
              && r.response.body == Saved("Set updated successfully", setId)
              && setId in r.store.sets
              && r.store == s.(sets := s.sets[setId := r.store.sets[setId]])
              && r.store.sets[setId].exerciseId == s.sets[setId].exerciseId
              && r.store.sets[setId].reps == (if reps.Some? then reps.value else s.sets[setId].reps)
              && r.store.sets[setId].weight == (if weight.Some? then weight.value else s.sets[setId].weight)
  {
    match Authorize([Trainer], caller)
    case Stop(denied) => Step(denied, s)
    case Next(_) =>
      var errors := UpdateSetErrors(reps, weight);
      if errors != [] then Reject(s, errors)
      else if setId !in s.sets then Halt(s, NotFound, "Set not found")
      else
        match SetOwner(s, setId)
        case None => Crash(s)
        case Some(trainer) =>
          if trainer != caller.id then Halt(s, Forbidden, "Access denied")
          else
            var current := s.sets[setId];
            Step(Response(Ok, Saved("Set updated successfully", setId)),
                 Models.RewriteSet(s, setId, reps.GetOr(current.reps), weight.GetOr(current.weight)))
  }

  // Properties relating the three routes and the store invariant.

  lemma AddSetValid(s: Store, caller: Payload, exerciseId: Option<Id>, reps: Option<real>, weight: Option<real>)
    requires Valid(s)
    ensures Valid(AddSet(s, caller, exerciseId, reps, weight).store)
  {
    if AddSet(s, caller, exerciseId, reps, weight).response.status == Created {
      Models.AppendSetValid(s, exerciseId.value, reps.value, weight.value);
    }
  }

  lemma DeleteSetValid(s: Store, caller: Payload, setId: Id)
    requires Valid(s)
    ensures Valid(DeleteSet(s, caller, setId).store)
  {
    if DeleteSet(s, caller, setId).response.status == Ok {
      Models.RemoveSetValid(s, setId);
    }
  }

  lemma UpdateSetValid(s: Store, caller: Payload, setId: Id, reps: Option<real>, weight: Option<real>)
    requires Valid(s)
    ensures Valid(UpdateSet(s, caller, setId, reps, weight).store)
  {
    if UpdateSet(s, caller, setId, reps, weight).response.status == Ok {
      var current := s.sets[setId];
      Models.RewriteSetValid(s, setId, reps.GetOr(current.reps), weight.GetOr(current.weight));
    }
  }

  /** Deleting the set just added restores the store, apart from the spent
      id: the exercise's list is back to what it was, in the same order. */
  lemma AddThenDeleteSet(s: Store, caller: Payload, exerciseId: Option<Id>, reps: Option<real>, weight: Option<real>)
    requires Valid(s)
    requires AddSet(s, caller, exerciseId, reps, weight).response.status == Created
    ensures var s1 := AddSet(s, caller, exerciseId, reps, weight).store;
            DeleteSet(s1, caller, s.nextId) ==
              Step(Response(Ok, Message("Set deleted successfully")), s.(nextId := s.nextId + 1))
  {
    var s1 := AddSet(s, caller, exerciseId, reps, weight).store;
    var e := exerciseId.value;
    assert SetOwner(s1, s.nextId) == ExerciseOwner(s, e);
    Models.AppendThenRemoveSet(s, e, reps.value, weight.value);
  }

  /** In a valid store the deleted set's id is listed by no exercise
      afterwards: only its own parent listed it. */
  lemma DeleteSetUnlinks(s: Store, caller: Payload, setId: Id)
    requires Valid(s)
    requires DeleteSet(s, caller, setId).response.status == Ok
    ensures var s' := DeleteSet(s, caller, setId).store;
            setId !in s'.sets && forall e :: e in s'.exercises ==> setId !in s'.exercises[e].sets
  {
  }

  /** Repeating an update changes nothing further. */
  lemma UpdateSetIdempotent(s: Store, caller: Payload, setId: Id, reps: Option<real>, weight: Option<real>)
    requires UpdateSet(s, caller, setId, reps, weight).response.status == Ok
    ensures var s1 := UpdateSet(s, caller, setId, reps, weight).store;
            UpdateSet(s1, caller, setId, reps, weight).store == s1
  {
    var s1 := UpdateSet(s, caller, setId, reps, weight).store;
    assert SetOwner(s1, setId) == SetOwner(s, setId);
  }

  lemma AddSetIsolation(s: Store, caller: Payload, exerciseId: Option<Id>, reps: Option<real>, weight: Option<real>, trainer: Id)
    requires IdsFresh(s) && trainer != caller.id
    ensures TreeUnchanged(s, AddSet(s, caller, exerciseId, reps, weight).store, trainer)
  {
    NextIdUnused(s);
  }

  lemma DeleteSetIsolation(s: Store, caller: Payload, setId: Id, trainer: Id)
    requires trainer != caller.id
    ensures TreeUnchanged(s, DeleteSet(s, caller, setId).store, trainer)
  {
  }

  lemma UpdateSetIsolation(s: Store, caller: Payload, setId: Id, reps: Option<real>, weight: Option<real>, trainer: Id)
    requires trainer != caller.id
    ensures TreeUnchanged(s, UpdateSet(s, caller, setId, reps, weight).store, trainer)
  {
  }

  // The router: `app.use('/sets', setsRoutes)`.

  /** The requests the `/sets` router answers. */
  datatype Request =
    | Add(exerciseId: Option<Id>, reps: Option<real>, weight: Option<real>)  // POST /sets
    | Delete(setId: Id)                                                     // DELETE /sets/:setId
    | Update(setId: Id, reps: Option<real>, weight: Option<real>)           // PUT /sets/:setId

  function Dispatch(s: Store, caller: Payload, req: Request): Step
  {
    match req
    case Add(e, reps, weight) => AddSet(s, caller, e, reps, weight)
    case Delete(x) => DeleteSet(s, caller, x)
    case Update(x, reps, weight) => UpdateSet(s, caller, x, reps, weight)
  }

  lemma DispatchValid(s: Store, caller: Payload, req: Request)
    requires Valid(s)
    ensures Valid(Dispatch(s, caller, req).store)
  {
    match req
    case Add(e, reps, weight) => AddSetValid(s, caller, e, reps, weight);
    case Delete(x) => DeleteSetValid(s, caller, x);
    case Update(x, reps, weight) => UpdateSetValid(s, caller, x, reps, weight);
  }

  lemma DispatchIsolation(s: Store, caller: Payload, req: Request, trainer: Id)
    requires IdsFresh(s) && trainer != caller.id
    ensures TreeUnchanged(s, Dispatch(s, caller, req).store, trainer)
  {
    match req
    case Add(e, reps, weight) => AddSetIsolation(s, caller, e, reps, weight, trainer);
    case Delete(x) => DeleteSetIsolation(s, caller, x, trainer);
    case Update(x, reps, weight) => UpdateSetIsolation(s, caller, x, reps, weight, trainer);
  }

  /** Every route of the router is for trainers only. */
  lemma DispatchRefusesUsers(s: Store, caller: Payload, req: Request)
    requires caller.role == User
    ensures Dispatch(s, caller, req) == Step(Response(Forbidden, Error("Access denied")), s)
  {
  }
}
