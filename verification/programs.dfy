/** The `/programs` routes: create a program, assign it to a user, delete
    it, rename it. Every lookup filters on both the program id and the
    caller, so another trainer's program is "not found". */
module Programs {
  import opened Common
  import opened Store
  import opened Http
  import opened Middleware
  import Models

  /** POST /programs */
  function CreateProgram(s: Store, caller: Payload, programName: Option<string>): (r: Step)
    ensures caller.role != Trainer ==> r == Halt(s, Forbidden, "Access denied")
    ensures caller.role == Trainer && !NonEmpty(programName) ==>
              r == Reject(s, ["Program name is required"])
    ensures r.response.status == Created <==> caller.role == Trainer && NonEmpty(programName)
    ensures r.response.status != Created ==> r.store == s
    ensures r.response.status == Created ==>
              && r.response.body == Saved("Program created successfully", s.nextId)
              && r.store.programs == s.programs[s.nextId := Program(caller.id, programName.value, [], [])]
              && r.store.users == s.users && r.store.days == s.days
              && r.store.exercises == s.exercises && r.store.sets == s.sets
              && r.store.nextId == s.nextId + 1
  {
    match Authorize([Trainer], caller)
    case Stop(denied) => Step(denied, s)
    case Next(_) =>
      if !NonEmpty(programName) then Reject(s, ["Program name is required"])
      else
        Step(Response(Created, Saved("Program created successfully", s.nextId)),
             Models.InsertProgram(s, caller.id, programName.value))
  }

  /** POST /programs/:programId/assign. The user is appended only when the
      program does not list it yet; either way the answer is 200. */
  function AssignProgram(s: Store, caller: Payload, programId: Id, userId: Option<Id>): (r: Step)
    ensures caller.role != Trainer ==> r == Halt(s, Forbidden, "Access denied")
    ensures caller.role == Trainer && userId.None? ==> r == Reject(s, ["User ID is required"])
    ensures r.response.status == NotFound <==>
              caller.role == Trainer && userId.Some?
              && (!OwnsProgram(s, caller, programId) || userId.value !in s.users)
    ensures r.response.status == NotFound ==>
              r.response.body == (if OwnsProgram(s, caller, programId) then Error("User not found")
                                  else Error("Program not found"))
    ensures r.response.status == Ok <==>
              caller.role == Trainer && userId.Some? && OwnsProgram(s, caller, programId) && userId.value in s.users
    ensures r.response.status != Ok ==> r.store == s
    ensures r.response.status == Ok ==>
              var u := userId.value;
              var listed := s.programs[programId].assignedUsers;
              && r.response.body == Saved("Program assigned to user", programId)
              && programId in r.store.programs
              && r.store == s.(programs := s.programs[programId := r.store.programs[programId]])
              && r.store.programs[programId]
                 == s.programs[programId].(assignedUsers := if u in listed then listed else listed + [u])
  {
    match Authorize([Trainer], caller)
    case Stop(denied) => Step(denied, s)
    case Next(_) =>
      if userId.None? then Reject(s, ["User ID is required"])
      else if !OwnsProgram(s, caller, programId) then Halt(s, NotFound, "Program not found")
      else if userId.value !in s.users then Halt(s, NotFound, "User not found")
      else
        var u := userId.value;
        var updated := if u in s.programs[programId].assignedUsers then s
                        else Models.AppendAssignee(s, programId, u);
        Step(Response(Ok, Saved("Program assigned to user", programId)), updated)
  }

  /** DELETE /programs/:programId: the Program model has no delete hook, so
      the program's days stay behind. */
  function DeleteProgram(s: Store, caller: Payload, programId: Id): (r: Step)
    ensures caller.role != Trainer ==> r == Halt(s, Forbidden, "Access denied")
    ensures r.response.status == NotFound <==> caller.role == Trainer && !OwnsProgram(s, caller, programId)
    ensures r.response.status == NotFound ==> r.response.body == Error("Program not found")
    ensures r.response.status == Ok <==> caller.role == Trainer && OwnsProgram(s, caller, programId)
    ensures r.response.status != Ok ==> r.store == s
    ensures r.response.status == Ok ==>
              && r.response.body == Message("Program deleted successfully")
              && r.store == s.(programs := s.programs - {programId})
  {
    match Authorize([Trainer], caller)
    case Stop(denied) => Step(denied, s)
    case Next(_) =>
      if !OwnsProgram(s, caller, programId) then Halt(s, NotFound, "Program not found")
      else
        Step(Response(Ok, Message("Program deleted successfully")), Models.DeleteProgramDocument(s, programId))
  }

  /** PUT /programs/:programId: an empty name is refused, an absent one
      leaves the program as it was. */
  function UpdateProgram(s: Store, caller: Payload, programId: Id, programName: Option<string>): (r: Step)
    ensures caller.role != Trainer ==> r == Halt(s, Forbidden, "Access denied")
    ensures caller.role == Trainer && programName == Some("") ==>
              r == Reject(s, ["Program name cannot be empty"])
    ensures r.response.status == NotFound <==>
              caller.role == Trainer && programName != Some("") && !OwnsProgram(s, caller, programId)
    ensures r.response.status == NotFound ==> r.response.body == Error("Program not found")
    ensures r.response.status == Ok <==>
              caller.role == Trainer && programName != Some("") && OwnsProgram(s, caller, programId)
    ensures r.response.status != Ok || programName.None? ==> r.store == s
    ensures r.response.status == Ok ==>
              && r.response.body == Saved("Program updated successfully", programId)
              && programId in r.store.programs
              && r.store == s.(programs := s.programs[programId := r.store.programs[programId]])
              && r.store.programs[programId]
                 == s.programs[programId].(programName := programName.GetOr(s.programs[programId].programName))
  {
    match Authorize([Trainer], caller)
    case Stop(denied) => Step(denied, s)
    case Next(_) =>
      if programName == Some("") then Reject(s, ["Program name cannot be empty"])
      else if !OwnsProgram(s, caller, programId) then Halt(s, NotFound, "Program not found")
      else
        var renamed := if programName.Some? then Models.RenameProgram(s, programId, programName.value) else s;
        Step(Response(Ok, Saved("Program updated successfully", programId)), renamed)
  }

  // Properties of the four routes.

  lemma CreateProgramValid(s: Store, caller: Payload, programName: Option<string>)
    requires Valid(s)
    ensures Valid(CreateProgram(s, caller, programName).store)
  {
    if CreateProgram(s, caller, programName).response.status == Created {
      Models.InsertProgramValid(s, caller.id, programName.value);
    }
  }

  lemma AssignProgramValid(s: Store, caller: Payload, programId: Id, userId: Option<Id>)
    requires Valid(s)
    ensures Valid(AssignProgram(s, caller, programId, userId).store)
  {
    var r := AssignProgram(s, caller, programId, userId);
    if r.response.status == Ok && userId.value !in s.programs[programId].assignedUsers {
      Models.AppendAssigneeValid(s, programId, userId.value);
    }
  }

  lemma DeleteProgramValid(s: Store, caller: Payload, programId: Id)
    requires Valid(s)
    ensures Valid(DeleteProgram(s, caller, programId).store)
  {
    if DeleteProgram(s, caller, programId).response.status == Ok {
      Models.DeleteProgramDocumentValid(s, programId);
    }
  }

  lemma UpdateProgramValid(s: Store, caller: Payload, programId: Id, programName: Option<string>)
    requires Valid(s)
    ensures Valid(UpdateProgram(s, caller, programId, programName).store)
  {
    if UpdateProgram(s, caller, programId, programName).response.status == Ok && programName.Some? {
      Models.RenameProgramValid(s, programId, programName.value);
    }
  }

  /** Assigning is idempotent: a second identical request answers the same
      and changes nothing. */
  lemma AssignProgramIdempotent(s: Store, caller: Payload, programId: Id, userId: Option<Id>)
    requires AssignProgram(s, caller, programId, userId).response.status == Ok
    ensures var s1 := AssignProgram(s, caller, programId, userId).store;
            AssignProgram(s1, caller, programId, userId) == Step(AssignProgram(s, caller, programId, userId).response, s1)
  {
    var s1 := AssignProgram(s, caller, programId, userId).store;
    assert OwnsProgram(s1, caller, programId);
    assert userId.value in s1.programs[programId].assignedUsers;
  }

  /** In a valid store a successful assignment lists the user exactly once,
      however often it is repeated. */
  lemma AssignedExactlyOnce(s: Store, caller: Payload, programId: Id, userId: Option<Id>)
    requires Valid(s)
    requires AssignProgram(s, caller, programId, userId).response.status == Ok
    ensures var s1 := AssignProgram(s, caller, programId, userId).store;
            Count(s1.programs[programId].assignedUsers, userId.value) == 1
  {
    var s1 := AssignProgram(s, caller, programId, userId).store;
    AssignProgramValid(s, caller, programId, userId);
    assert userId.value in s1.programs[programId].assignedUsers;
    CountNoDuplicates(s1.programs[programId].assignedUsers, userId.value);
  }

  /** Deleting the program just created restores the store, apart from the
      spent id. */
  lemma CreateThenDeleteProgram(s: Store, caller: Payload, programName: Option<string>)
    requires IdsFresh(s)
    requires CreateProgram(s, caller, programName).response.status == Created
    ensures var s1 := CreateProgram(s, caller, programName).store;
            DeleteProgram(s1, caller, s.nextId)
              == Step(Response(Ok, Message("Program deleted successfully")), s.(nextId := s.nextId + 1))
  {
    var s1 := CreateProgram(s, caller, programName).store;
    NextIdUnused(s);
    assert OwnsProgram(s1, caller, s.nextId);
    assert s1.programs - {s.nextId} == s.programs;
  }

  /** Deleting a program leaves its training days in place, each now with a
      broken chain. */
  lemma DeleteProgramOrphansDays(s: Store, caller: Payload, programId: Id, d: Id)
    requires DeleteProgram(s, caller, programId).response.status == Ok
    requires d in s.days && s.days[d].programId == programId
    ensures var s' := DeleteProgram(s, caller, programId).store;
            d in s'.days && s'.days[d] == s.days[d] && DayOwner(s', d).None?
  {
  }

  lemma CreateProgramIsolation(s: Store, caller: Payload, programName: Option<string>, trainer: Id)
    requires IdsFresh(s) && trainer != caller.id
    ensures TreeUnchanged(s, CreateProgram(s, caller, programName).store, trainer)
  {
    NextIdUnused(s);
  }

  lemma AssignProgramIsolation(s: Store, caller: Payload, programId: Id, userId: Option<Id>, trainer: Id)
    requires trainer != caller.id
    ensures TreeUnchanged(s, AssignProgram(s, caller, programId, userId).store, trainer)
  {
  }

  lemma DeleteProgramIsolation(s: Store, caller: Payload, programId: Id, trainer: Id)
    requires trainer != caller.id
    ensures TreeUnchanged(s, DeleteProgram(s, caller, programId).store, trainer)
  {
  }

  lemma UpdateProgramIsolation(s: Store, caller: Payload, programId: Id, programName: Option<string>, trainer: Id)
    requires trainer != caller.id
    ensures TreeUnchanged(s, UpdateProgram(s, caller, programId, programName).store, trainer)
  {
  }

  // The router: `app.use('/programs', programsRoutes)`.

  /** The requests the `/programs` router answers. */
  datatype Request =
    | Create(programName: Option<string>)                // POST /programs
    | Assign(programId: Id, userId: Option<Id>)          // POST /programs/:programId/assign
    | Delete(programId: Id)                              // DELETE /programs/:programId
    | Update(programId: Id, programName: Option<string>) // PUT /programs/:programId

  function Dispatch(s: Store, caller: Payload, req: Request): Step
  {
    match req
    case Create(name) => CreateProgram(s, caller, name)
    case Assign(p, u) => AssignProgram(s, caller, p, u)
    case Delete(p) => DeleteProgram(s, caller, p)
    case Update(p, name) => UpdateProgram(s, caller, p, name)
  }

  lemma DispatchValid(s: Store, caller: Payload, req: Request)
    requires Valid(s)
    ensures Valid(Dispatch(s, caller, req).store)
  {
    match req
    case Create(name) => CreateProgramValid(s, caller, name);
    case Assign(p, u) => AssignProgramValid(s, caller, p, u);
    case Delete(p) => DeleteProgramValid(s, caller, p);
    case Update(p, name) => UpdateProgramValid(s, caller, p, name);
  }

  lemma DispatchIsolation(s: Store, caller: Payload, req: Request, trainer: Id)
    requires IdsFresh(s) && trainer != caller.id
    ensures TreeUnchanged(s, Dispatch(s, caller, req).store, trainer)
  {
    match req
    case Create(name) => CreateProgramIsolation(s, caller, name, trainer);
    case Assign(p, u) => AssignProgramIsolation(s, caller, p, u, trainer);
    case Delete(p) => DeleteProgramIsolation(s, caller, p, trainer);
    case Update(p, name) => UpdateProgramIsolation(s, caller, p, name, trainer);
  }

  /** Every route of the router is for trainers only. */
  lemma DispatchRefusesUsers(s: Store, caller: Payload, req: Request)
    requires caller.role == User
    ensures Dispatch(s, caller, req) == Step(Response(Forbidden, Error("Access denied")), s)
  {
  }
}
