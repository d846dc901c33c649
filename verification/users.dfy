/** The `/users` route: a caller's assigned programs. It sits behind the
    authentication middleware only, so trainers are served too. */
module Users {
  import opened Common
  import opened Store
  import opened Http
  import Programs

  /** `Program.find({ assignedUsers: userId })`, keyed by program id. */
  function AssignedPrograms(s: Store, userId: Id): (found: map<Id, Program>)
    ensures forall p :: p in found <==> p in s.programs && userId in s.programs[p].assignedUsers
    ensures forall p :: p in found ==> found[p] == s.programs[p]
  {
    map p | p in s.programs && userId in s.programs[p].assignedUsers :: s.programs[p]
  }

  /** The same query as a scan over the collection, one program at a time. */
  method ListAssignedPrograms(s: Store, userId: Id) returns (found: map<Id, Program>)
    ensures forall p :: p in found <==> p in s.programs && userId in s.programs[p].assignedUsers
    ensures forall p :: p in found ==> found[p] == s.programs[p]
    ensures found == AssignedPrograms(s, userId)
  {
    found := map[];
    var remaining := s.programs.Keys;
    while remaining != {}
      invariant remaining <= s.programs.Keys
      invariant forall p :: p in found <==>
                  p in s.programs && p !in remaining && userId in s.programs[p].assignedUsers
      invariant forall p :: p in found ==> found[p] == s.programs[p]
      decreases remaining
    {
      var p :| p in remaining;
      if userId in s.programs[p].assignedUsers {
        found := found[p := s.programs[p]];
      }
      remaining := remaining - {p};
    }
  }

  /** GET /users/programs: always 200, never a write, whatever the role. */
  function GetPrograms(s: Store, caller: Payload): (r: Step)
    ensures r.store == s && r.response.status == Ok && r.response.body.Programs?
    ensures forall p :: p in r.response.body.programs <==>
              p in s.programs && caller.id in s.programs[p].assignedUsers
    ensures forall p :: p in r.response.body.programs ==> r.response.body.programs[p] == s.programs[p]
  {
    Step(Response(Ok, Programs(AssignedPrograms(s, caller.id))), s)
  }

  /** A successful assignment makes the program show up in the assignee's
      list, with the assignee among its users. */
  lemma AssignThenListed(s: Store, trainer: Payload, programId: Id, userId: Option<Id>, role: Role)
    requires Programs.AssignProgram(s, trainer, programId, userId).response.status == Ok
    ensures var s1 := Programs.AssignProgram(s, trainer, programId, userId).store;
            var listed := GetPrograms(s1, Payload(userId.value, role)).response.body.programs;
            programId in listed && userId.value in listed[programId].assignedUsers
  {
  }

  /** Deleting a program takes it off every list. */
  lemma DeleteThenUnlisted(s: Store, trainer: Payload, programId: Id, caller: Payload)
    requires Programs.DeleteProgram(s, trainer, programId).response.status == Ok
    ensures var s1 := Programs.DeleteProgram(s, trainer, programId).store;
            programId !in GetPrograms(s1, caller).response.body.programs
  {
  }
}
