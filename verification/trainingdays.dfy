/** The `/trainingDays` routes: add a training day to a program, delete a
    training day with its exercises. */
module TrainingDays {
  import opened Common
  import opened Store
  import opened Http
  import opened Middleware
  import Models

  /** Messages of the failing POST validators, in declaration order. */
  function AddTrainingDayErrors(programId: Option<Id>, dayNumber: Option<real>): seq<string>
  {
    (if programId.Some? then [] else ["Program ID is required"])
    + (if dayNumber.Some? && DayNumberOk(dayNumber.value) then [] else ["Day number is required"])
  }

  predicate AddTrainingDayFieldsOk(programId: Option<Id>, dayNumber: Option<real>) {
    programId.Some? && dayNumber.Some? && DayNumberOk(dayNumber.value)
  }

  /** POST /trainingDays. The program lookup filters on both id and trainer,
      so another trainer's program is "not found". Nothing checks
      `dayNumber` against the program's other days. */
  function AddTrainingDay(s: Store, caller: Payload, programId: Option<Id>, dayNumber: Option<real>): (r: Step)
    ensures caller.role != Trainer ==> r == Halt(s, Forbidden, "Access denied")
    ensures caller.role == Trainer && !AddTrainingDayFieldsOk(programId, dayNumber) ==>
              r == Reject(s, AddTrainingDayErrors(programId, dayNumber)) && AddTrainingDayErrors(programId, dayNumber) != []
    ensures r.response.status == NotFound <==>
              caller.role == Trainer && AddTrainingDayFieldsOk(programId, dayNumber)
              && !OwnsProgram(s, caller, programId.value)
    ensures r.response.status == NotFound ==> r.response.body == Error("Program not found")
    ensures r.response.status != ServerError
    ensures r.response.status == Created <==>
              caller.role == Trainer && AddTrainingDayFieldsOk(programId, dayNumber)
              && OwnsProgram(s, caller, programId.value)
    ensures r.response.status != Created ==> r.store == s
    ensures r.response.status == Created ==>
              var p := programId.value;
              && r.response.body == Saved("Training day added to program", s.nextId)
              && r.store.days == s.days[s.nextId := TrainingDay(p, dayNumber.value, [])]
              && r.store.programs == s.programs[p := s.programs[p].(trainingDays := s.programs[p].trainingDays + [s.nextId])]
              && r.store.users == s.users && r.store.exercises == s.exercises && r.store.sets == s.sets
              && r.store.nextId == s.nextId + 1
  {
    match Authorize([Trainer], caller)
    case Stop(denied) => Step(denied, s)
    case Next(_) =>
      var errors := AddTrainingDayErrors(programId, dayNumber);
      if errors != [] then Reject(s, errors)
      else
        var p := programId.value;
        if !OwnsProgram(s, caller, p) then Halt(s, NotFound, "Program not found")
        else
          Step(Response(Created, Saved("Training day added to program", s.nextId)),
               Models.AppendDay(s, p, dayNumber.value))
  }

  /** DELETE /trainingDays/:trainingDayId. A missing day is answered like
      another trainer's day; the document delete cascades to the day's
      exercises only, and the program keeps listing the day. */
  function DeleteTrainingDay(s: Store, caller: Payload, trainingDayId: Id): (r: Step)
    ensures caller.role != Trainer ==> r == Halt(s, Forbidden, "Access denied")
    ensures r.response.status != NotFound
    ensures r.response.status == ServerError <==>
              caller.role == Trainer && trainingDayId in s.days && DayOwner(s, trainingDayId).None?
    ensures r.response.status == ServerError ==> r.response.body == Error("Server error")
    ensures r.response.status == Forbidden <==>
              caller.role != Trainer || trainingDayId !in s.days
              || (DayOwner(s, trainingDayId).Some? && DayOwner(s, trainingDayId).value != caller.id)
    ensures r.response.status == Forbidden ==> r.response.body == Error("Access denied")
    ensures r.response.status == Ok <==>
              caller.role == Trainer && trainingDayId in s.days && DayOwner(s, trainingDayId) == Some(caller.id)
    ensures r.response.status != Ok ==> r.store == s
    ensures r.response.status == Ok ==>
              && r.response.body == Message("Training day and associated data deleted successfully")
              && r.store.days == s.days - {trainingDayId}
              && (forall e :: e in r.store.exercises <==> e in s.exercises && s.exercises[e].trainingDayId != trainingDayId)
              && (forall e :: e in r.store.exercises ==> r.store.exercises[e] == s.exercises[e])
              && r.store.programs == s.programs && r.store.sets == s.sets
              && r.store.users == s.users && r.store.nextId == s.nextId
  {
    match Authorize([Trainer], caller)
    case Stop(denied) => Step(denied, s)
    case Next(_) =>
      if trainingDayId !in s.days then Halt(s, Forbidden, "Access denied")
      else
        match DayOwner(s, trainingDayId)
        case None => Crash(s)
        case Some(trainer) =>
          if trainer != caller.id then Halt(s, Forbidden, "Access denied")
          else
            Step(Response(Ok, Message("Training day and associated data deleted successfully")),
                 Models.DeleteTrainingDayDocument(s, trainingDayId))
  }

  // Properties of the two routes.

  lemma AddTrainingDayValid(s: Store, caller: Payload, programId: Option<Id>, dayNumber: Option<real>)
    requires Valid(s)
    ensures Valid(AddTrainingDay(s, caller, programId, dayNumber).store)
  {
    if AddTrainingDay(s, caller, programId, dayNumber).response.status == Created {
      Models.AppendDayValid(s, programId.value, dayNumber.value);
    }
  }

  lemma DeleteTrainingDayValid(s: Store, caller: Payload, trainingDayId: Id)
    requires Valid(s)
    ensures Valid(DeleteTrainingDay(s, caller, trainingDayId).store)
  {
    if DeleteTrainingDay(s, caller, trainingDayId).response.status == Ok {
      Models.DeleteTrainingDayDocumentValid(s, trainingDayId);
    }
  }

  /** Day numbers are not unique within a program: posting the same day
      twice is accepted both times and leaves two distinct days of the same
      program with the same number. */
  lemma DuplicateDayNumberAccepted(s: Store, caller: Payload, programId: Option<Id>, dayNumber: Option<real>)
    requires Valid(s)
    requires AddTrainingDay(s, caller, programId, dayNumber).response.status == Created
    ensures var s1 := AddTrainingDay(s, caller, programId, dayNumber).store;
            var r := AddTrainingDay(s1, caller, programId, dayNumber);
            && r.response.status == Created
            && s.nextId in r.store.days && s1.nextId in r.store.days && s.nextId != s1.nextId
            && r.store.days[s.nextId].programId == r.store.days[s1.nextId].programId == programId.value
            && r.store.days[s.nextId].dayNumber == r.store.days[s1.nextId].dayNumber == dayNumber.value
  {
    var s1 := AddTrainingDay(s, caller, programId, dayNumber).store;
    assert OwnsProgram(s1, caller, programId.value);
  }

  /** Deleting a day removes its exercises but not their sets: a set of one
      of those exercises survives with a broken chain, so every later set
      route on it answers 500. */
  lemma DeleteTrainingDayOrphansSets(s: Store, caller: Payload, trainingDayId: Id, x: Id)
    requires DeleteTrainingDay(s, caller, trainingDayId).response.status == Ok
    requires x in s.sets && s.sets[x].exerciseId in s.exercises
    requires s.exercises[s.sets[x].exerciseId].trainingDayId == trainingDayId
    ensures var s' := DeleteTrainingDay(s, caller, trainingDayId).store;
            x in s'.sets && SetOwner(s', x).None?
  {
    Models.DayCascadeOrphansSets(s, trainingDayId, x);
  }

  /** After a delete the program still lists the deleted day's id. */
  lemma DeleteTrainingDayLeavesId(s: Store, caller: Payload, trainingDayId: Id)
    requires Valid(s)
    requires DeleteTrainingDay(s, caller, trainingDayId).response.status == Ok
    ensures var s' := DeleteTrainingDay(s, caller, trainingDayId).store;
            var p := s.days[trainingDayId].programId;
            && p in s'.programs && trainingDayId in s'.programs[p].trainingDays
            && trainingDayId !in s'.days
  {
  }

  lemma AddTrainingDayIsolation(s: Store, caller: Payload, programId: Option<Id>, dayNumber: Option<real>, trainer: Id)
    requires IdsFresh(s) && trainer != caller.id
    ensures TreeUnchanged(s, AddTrainingDay(s, caller, programId, dayNumber).store, trainer)
  {
    NextIdUnused(s);
  }

  lemma DeleteTrainingDayIsolation(s: Store, caller: Payload, trainingDayId: Id, trainer: Id)
    requires trainer != caller.id
    ensures TreeUnchanged(s, DeleteTrainingDay(s, caller, trainingDayId).store, trainer)
  {
  }

  // The router: `app.use('/trainingDays', trainingDaysRoutes)`.

  /** The requests the `/trainingDays` router answers. */
  datatype Request =
    | Add(programId: Option<Id>, dayNumber: Option<real>)  // POST /trainingDays
    | Delete(trainingDayId: Id)                           // DELETE /trainingDays/:trainingDayId

  function Dispatch(s: Store, caller: Payload, req: Request): Step
  {
    match req
    case Add(p, n) => AddTrainingDay(s, caller, p, n)
    case Delete(d) => DeleteTrainingDay(s, caller, d)
  }

  lemma DispatchValid(s: Store, caller: Payload, req: Request)
    requires Valid(s)
    ensures Valid(Dispatch(s, caller, req).store)
  {
    match req
    case Add(p, n) => AddTrainingDayValid(s, caller, p, n);
    case Delete(d) => DeleteTrainingDayValid(s, caller, d);
  }

  lemma DispatchIsolation(s: Store, caller: Payload, req: Request, trainer: Id)
    requires IdsFresh(s) && trainer != caller.id
    ensures TreeUnchanged(s, Dispatch(s, caller, req).store, trainer)
  {
    match req
    case Add(p, n) => AddTrainingDayIsolation(s, caller, p, n, trainer);
    case Delete(d) => DeleteTrainingDayIsolation(s, caller, d, trainer);
  }

  /** Every route of the router is for trainers only. */
  lemma DispatchRefusesUsers(s: Store, caller: Payload, req: Request)
    requires caller.role == User
    ensures Dispatch(s, caller, req) == Step(Response(Forbidden, Error("Access denied")), s)
  {
  }
}
