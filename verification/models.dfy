/** The writes the routes make through the persistence layer, each as a
    store transition, with proofs that each keeps the store invariant.

    Saving a new child document takes the next id and the route then pushes
    that id onto its parent's list. A query delete (`deleteMany`) removes
    every matching document and runs no hooks; a document delete
    (`doc.deleteOne()`) first runs the model's `pre('deleteOne')` document
    hook. TrainingDay's hook query-deletes its exercises and Exercise's hook
    query-deletes its sets; Program and Set have no hook. */
module Models {
  import opened Common
  import opened Store

  /** `Set.deleteMany({ exerciseId })`. */
  function DeleteSetsOf(s: Store, e: Id): (s': Store)
    ensures forall x :: x in s'.sets <==> x in s.sets && s.sets[x].exerciseId != e
    ensures forall x :: x in s'.sets ==> s'.sets[x] == s.sets[x]
    ensures s'.users == s.users && s'.programs == s.programs && s'.days == s.days
    ensures s'.exercises == s.exercises && s'.nextId == s.nextId
  {
    s.(sets := map x | x in s.sets && s.sets[x].exerciseId != e :: s.sets[x])
  }

  /** `Exercise.deleteMany({ trainingDayId })`: a query delete, so the
      exercises' own hook does not fire and their sets stay. */
  function DeleteExercisesOf(s: Store, d: Id): (s': Store)
    ensures forall e :: e in s'.exercises <==> e in s.exercises && s.exercises[e].trainingDayId != d
    ensures forall e :: e in s'.exercises ==> s'.exercises[e] == s.exercises[e]
    ensures s'.users == s.users && s'.programs == s.programs && s'.days == s.days
    ensures s'.sets == s.sets && s'.nextId == s.nextId
  {
    s.(exercises := map e | e in s.exercises && s.exercises[e].trainingDayId != d :: s.exercises[e])
  }

  /** `exercise.deleteOne()`: the hook deletes the exercise's sets, then the
      exercise goes. The training day's `exercises` list is not edited. */
  function DeleteExerciseDocument(s: Store, e: Id): (s': Store)
    ensures s'.exercises == s.exercises - {e}
    ensures forall x :: x in s'.sets <==> x in s.sets && s.sets[x].exerciseId != e
    ensures forall x :: x in s'.sets ==> s'.sets[x] == s.sets[x]
    ensures s'.users == s.users && s'.programs == s.programs && s'.days == s.days
    ensures s'.nextId == s.nextId
  {
    var t := DeleteSetsOf(s, e);
    t.(exercises := t.exercises - {e})
  }

  /** `trainingDay.deleteOne()`: the hook deletes the day's exercises, then
      the day goes. The program's `trainingDays` list is not edited, and the
      deleted exercises' sets remain. */
  function DeleteTrainingDayDocument(s: Store, d: Id): (s': Store)
    ensures s'.days == s.days - {d}
    ensures forall e :: e in s'.exercises <==> e in s.exercises && s.exercises[e].trainingDayId != d
    ensures forall e :: e in s'.exercises ==> s'.exercises[e] == s.exercises[e]
    ensures s'.users == s.users && s'.programs == s.programs && s'.sets == s.sets
    ensures s'.nextId == s.nextId
  {
    var t := DeleteExercisesOf(s, d);
    t.(days := t.days - {d})
  }

  /** `program.deleteOne()`: Program has no hook, so its days stay. */
  function DeleteProgramDocument(s: Store, p: Id): (s': Store)
    ensures s'.programs == s.programs - {p}
    ensures s'.users == s.users && s'.days == s.days && s'.exercises == s.exercises
    ensures s'.sets == s.sets && s'.nextId == s.nextId
  {
    s.(programs := s.programs - {p})
  }

  /** `set.deleteOne()`: Set has no hook. */
  function DeleteSetDocument(s: Store, x: Id): (s': Store)
    ensures s'.sets == s.sets - {x}
    ensures s'.users == s.users && s'.programs == s.programs && s'.days == s.days
    ensures s'.exercises == s.exercises && s'.nextId == s.nextId
  {
    s.(sets := s.sets - {x})
  }

  /** `new Set({ exerciseId, reps, weight }).save()` followed by
      `exercise.sets.push(set._id)`. */
  function AppendSet(s: Store, e: Id, reps: real, weight: real): (s': Store)
    requires e in s.exercises
    ensures s'.nextId == s.nextId + 1
    ensures s.nextId in s'.sets && s'.sets[s.nextId] == WorkSet(e, reps, weight)
    ensures s'.sets - {s.nextId} == s.sets - {s.nextId}
    ensures e in s'.exercises && s'.exercises[e] == s.exercises[e].(sets := s.exercises[e].sets + [s.nextId])
    ensures s'.exercises - {e} == s.exercises - {e}
    ensures s'.users == s.users && s'.programs == s.programs && s'.days == s.days
  {
    var x := s.nextId;
    s.(sets := s.sets[x := WorkSet(e, reps, weight)],
       exercises := s.exercises[e := s.exercises[e].(sets := s.exercises[e].sets + [x])],
       nextId := x + 1)
  }

  /** `exercise.sets = exercise.sets.filter(id => id !== setId)`, then
      `set.deleteOne()`. */
  function RemoveSet(s: Store, x: Id): (s': Store)
    requires x in s.sets && s.sets[x].exerciseId in s.exercises
    ensures s'.sets == s.sets - {x}
    ensures var e := s.sets[x].exerciseId;
            && e in s'.exercises && s'.exercises[e] == s.exercises[e].(sets := RemoveAll(s.exercises[e].sets, x))
            && x !in s'.exercises[e].sets
            && s'.exercises - {e} == s.exercises - {e}
    ensures s'.users == s.users && s'.programs == s.programs && s'.days == s.days
    ensures s'.nextId == s.nextId
  {
    var e := s.sets[x].exerciseId;
    var unlinked := s.(exercises := s.exercises[e := s.exercises[e].(sets := RemoveAll(s.exercises[e].sets, x))]);
    DeleteSetDocument(unlinked, x)
  }

  /** `set.save()` after assigning the provided fields. */
  function RewriteSet(s: Store, x: Id, reps: real, weight: real): (s': Store)
    requires x in s.sets
    ensures x in s'.sets && s'.sets[x] == WorkSet(s.sets[x].exerciseId, reps, weight)
    ensures s'.sets - {x} == s.sets - {x}
    ensures s'.users == s.users && s'.programs == s.programs && s'.days == s.days
    ensures s'.exercises == s.exercises && s'.nextId == s.nextId
  {
    s.(sets := s.sets[x := s.sets[x].(reps := reps, weight := weight)])
  }

  /** `new Exercise({ trainingDayId, name }).save()` followed by
      `trainingDay.exercises.push(exercise._id)`. */
  function AppendExercise(s: Store, d: Id, name: string): (s': Store)
    requires d in s.days
    ensures s'.nextId == s.nextId + 1
    ensures s.nextId in s'.exercises && s'.exercises[s.nextId] == Exercise(d, name, [])
    ensures s'.exercises - {s.nextId} == s.exercises - {s.nextId}
    ensures d in s'.days && s'.days[d] == s.days[d].(exercises := s.days[d].exercises + [s.nextId])
    ensures s'.days - {d} == s.days - {d}
    ensures s'.users == s.users && s'.programs == s.programs && s'.sets == s.sets
  {
    var e := s.nextId;
    s.(exercises := s.exercises[e := Exercise(d, name, [])],
       days := s.days[d := s.days[d].(exercises := s.days[d].exercises + [e])],
       nextId := e + 1)
  }

  /** `exercise.name = name; exercise.save()`. */
  function RenameExercise(s: Store, e: Id, name: string): (s': Store)
    requires e in s.exercises
    ensures e in s'.exercises && s'.exercises[e] == Exercise(s.exercises[e].trainingDayId, name, s.exercises[e].sets)
    ensures s'.exercises - {e} == s.exercises - {e}
    ensures s'.users == s.users && s'.programs == s.programs && s'.days == s.days
    ensures s'.sets == s.sets && s'.nextId == s.nextId
  {
    s.(exercises := s.exercises[e := s.exercises[e].(name := name)])
  }

  /** `new TrainingDay({ programId, dayNumber }).save()` followed by
      `program.trainingDays.push(trainingDay._id)`. */
  function AppendDay(s: Store, p: Id, dayNumber: real): (s': Store)
    requires p in s.programs
    ensures s'.nextId == s.nextId + 1
    ensures s.nextId in s'.days && s'.days[s.nextId] == TrainingDay(p, dayNumber, [])
    ensures s'.days - {s.nextId} == s.days - {s.nextId}
    ensures p in s'.programs && s'.programs[p] == s.programs[p].(trainingDays := s.programs[p].trainingDays + [s.nextId])
    ensures s'.programs - {p} == s.programs - {p}
    ensures s'.users == s.users && s'.exercises == s.exercises && s'.sets == s.sets
  {
    var d := s.nextId;
    s.(days := s.days[d := TrainingDay(p, dayNumber, [])],
       programs := s.programs[p := s.programs[p].(trainingDays := s.programs[p].trainingDays + [d])],
       nextId := d + 1)
  }

  /** `new Program({ trainerId, programName }).save()`. */
  function InsertProgram(s: Store, trainerId: Id, programName: string): (s': Store)
    ensures s'.nextId == s.nextId + 1
    ensures s.nextId in s'.programs && s'.programs[s.nextId] == Program(trainerId, programName, [], [])
    ensures s'.programs - {s.nextId} == s.programs - {s.nextId}
    ensures s'.users == s.users && s'.days == s.days && s'.exercises == s.exercises && s'.sets == s.sets
  {
    s.(programs := s.programs[s.nextId := Program(trainerId, programName, [], [])], nextId := s.nextId + 1)
  }

  /** `program.programName = programName; program.save()`. */
  function RenameProgram(s: Store, p: Id, programName: string): (s': Store)
    requires p in s.programs
    ensures p in s'.programs && s'.programs[p] == s.programs[p].(programName := programName)
    ensures s'.programs - {p} == s.programs - {p}
    ensures s'.users == s.users && s'.days == s.days && s'.exercises == s.exercises
    ensures s'.sets == s.sets && s'.nextId == s.nextId
  {
    s.(programs := s.programs[p := s.programs[p].(programName := programName)])
  }

  /** `program.assignedUsers.push(userId); program.save()`. */
  function AppendAssignee(s: Store, p: Id, u: Id): (s': Store)
    requires p in s.programs
    ensures p in s'.programs && s'.programs[p] == s.programs[p].(assignedUsers := s.programs[p].assignedUsers + [u])
    ensures s'.programs - {p} == s.programs - {p}
    ensures s'.users == s.users && s'.days == s.days && s'.exercises == s.exercises
    ensures s'.sets == s.sets && s'.nextId == s.nextId
  {
    s.(programs := s.programs[p := s.programs[p].(assignedUsers := s.programs[p].assignedUsers + [u])])
  }

  /** `new User({ email, password, role }).save()`. */
  function InsertUser(s: Store, account: Account): (s': Store)
    ensures s'.nextId == s.nextId + 1
    ensures s.nextId in s'.users && s'.users[s.nextId] == account
    ensures s'.users - {s.nextId} == s.users - {s.nextId}
    ensures s'.programs == s.programs && s'.days == s.days && s'.exercises == s.exercises && s'.sets == s.sets
  {
    s.(users := s.users[s.nextId := account], nextId := s.nextId + 1)
  }

  /** Removing the set just appended undoes the append, apart from the
      spent id. */
  lemma AppendThenRemoveSet(s: Store, e: Id, reps: real, weight: real)
    requires IdsFresh(s) && e in s.exercises
    ensures var s1 := AppendSet(s, e, reps, weight);
            s.nextId in s1.sets && s1.sets[s.nextId].exerciseId in s1.exercises
            && RemoveSet(s1, s.nextId) == s.(nextId := s.nextId + 1)
  {
    NextIdUnused(s);
    UndoAppendSet(s, e, reps, weight);
  }

  /** The undo itself, for any id the exercise does not list yet. */
  lemma UndoAppendSet(s: Store, e: Id, reps: real, weight: real)
    requires e in s.exercises && s.nextId !in s.sets && s.nextId !in s.exercises[e].sets
    ensures var s1 := AppendSet(s, e, reps, weight);
            s.nextId in s1.sets && s1.sets[s.nextId].exerciseId in s1.exercises
            && RemoveSet(s1, s.nextId) == s.(nextId := s.nextId + 1)
  {
    var x := s.nextId;
    var before := s.exercises[e].sets;
    assert RemoveAll(before + [x], x) == before by {
      RemoveSingle(before, x, []);
      assert before + [x] + [] == before + [x] && before + [] == before;
    }
    var s1 := AppendSet(s, e, reps, weight);
    var s2 := RemoveSet(s1, x);
    RestoreEntry(s.exercises, s2.exercises, e);
    RestoreEntry(s.sets, s2.sets - {x}, x);
  }

  /** A map that agrees with `m` at `k` and everywhere else is `m`. */
  lemma RestoreEntry<V>(m: map<Id, V>, m': map<Id, V>, k: Id)
    requires k in m ==> k in m' && m'[k] == m[k]
    requires k !in m ==> k !in m'
    requires m' - {k} == m - {k}
    ensures m' == m
  {
    assert forall j :: j in m' <==> j in m by {
      forall j ensures j in m' <==> j in m {
        if j != k {
          assert j in m' <==> j in m' - {k};
          assert j in m <==> j in m - {k};
        }
      }
    }
    forall j | j in m ensures m'[j] == m[j] {
      if j != k {
        assert j in m - {k};
        assert (m' - {k})[j] == m'[j] && (m - {k})[j] == m[j];
      }
    }
  }

  /** Deleting a day by document is not the same as deleting each of its
      exercises by document: a set of one of its exercises survives, its
      chain now broken. */
  lemma DayCascadeOrphansSets(s: Store, d: Id, x: Id)
    requires x in s.sets && s.sets[x].exerciseId in s.exercises
    requires s.exercises[s.sets[x].exerciseId].trainingDayId == d
    ensures var s' := DeleteTrainingDayDocument(s, d);
            x in s'.sets && SetOwner(s', x) == None
            && x !in DeleteExerciseDocument(s, s.sets[x].exerciseId).sets
  {
  }

  /** Both cascades keep the store invariant. */
  lemma DeleteExerciseDocumentValid(s: Store, e: Id)
    requires Valid(s)
    ensures Valid(DeleteExerciseDocument(s, e))
  {
  }

  lemma DeleteTrainingDayDocumentValid(s: Store, d: Id)
    requires Valid(s)
    ensures Valid(DeleteTrainingDayDocument(s, d))
  {
  }

  lemma DeleteProgramDocumentValid(s: Store, p: Id)
    requires Valid(s)
    ensures Valid(DeleteProgramDocument(s, p))
  {
  }

  // Each write keeps the store invariant. The proofs go part by part, each
  // part from only the invariant parts it needs.

  lemma AppendSetValid(s: Store, e: Id, reps: real, weight: real)
    requires Valid(s) && e in s.exercises && RepsOk(reps) && WeightOk(weight)
    ensures Valid(AppendSet(s, e, reps, weight))
  {
    AppendSetFresh(s, e, reps, weight);
    AppendSetLinks(s, e, reps, weight);
    AppendSetShape(s, e, reps, weight);
  }

  lemma AppendSetFresh(s: Store, e: Id, reps: real, weight: real)
    requires IdsFresh(s) && e in s.exercises
    ensures IdsFresh(AppendSet(s, e, reps, weight))
  {
    BelowGrows(s);
  }

  lemma AppendSetLinks(s: Store, e: Id, reps: real, weight: real)
    requires IdsFresh(s) && ExerciseLinks(s.days, s.exercises) && SetLinks(s.exercises, s.sets)
    requires e in s.exercises
    ensures var s' := AppendSet(s, e, reps, weight);
            ExerciseLinks(s'.days, s'.exercises) && SetLinks(s'.exercises, s'.sets)
  {
    NextIdUnused(s);
  }

  lemma AppendSetShape(s: Store, e: Id, reps: real, weight: real)
    requires IdsFresh(s) && ExercisesWellFormed(s.exercises) && SetsWellFormed(s.sets)
    requires e in s.exercises && RepsOk(reps) && WeightOk(weight)
    ensures var s' := AppendSet(s, e, reps, weight);
            ExercisesWellFormed(s'.exercises) && SetsWellFormed(s'.sets)
  {
    NextIdUnused(s);
    AppendNoDuplicates(s.exercises[e].sets, s.nextId);
  }

  lemma RemoveSetValid(s: Store, x: Id)
    requires Valid(s) && x in s.sets && s.sets[x].exerciseId in s.exercises
    ensures Valid(RemoveSet(s, x))
  {
    RemoveSetLinks(s, x);
    RemoveSetShape(s, x);
  }

  lemma RemoveSetLinks(s: Store, x: Id)
    requires IdsFresh(s) && ExerciseLinks(s.days, s.exercises) && SetLinks(s.exercises, s.sets)
    requires x in s.sets && s.sets[x].exerciseId in s.exercises
    ensures var s' := RemoveSet(s, x);
            IdsFresh(s') && ExerciseLinks(s'.days, s'.exercises) && SetLinks(s'.exercises, s'.sets)
  {
  }

  lemma RemoveSetShape(s: Store, x: Id)
    requires ExercisesWellFormed(s.exercises) && SetsWellFormed(s.sets)
    requires x in s.sets && s.sets[x].exerciseId in s.exercises
    ensures var s' := RemoveSet(s, x);
            ExercisesWellFormed(s'.exercises) && SetsWellFormed(s'.sets)
  {
    RemoveAllNoDuplicates(s.exercises[s.sets[x].exerciseId].sets, x);
  }

  lemma RewriteSetValid(s: Store, x: Id, reps: real, weight: real)
    requires Valid(s) && x in s.sets && RepsOk(reps) && WeightOk(weight)
    ensures Valid(RewriteSet(s, x, reps, weight))
  {
    var s' := RewriteSet(s, x, reps, weight);
    assert SetsBelow(s'.sets, s'.nextId);
    assert SetLinks(s'.exercises, s'.sets);
  }

  lemma AppendExerciseValid(s: Store, d: Id, name: string)
    requires Valid(s) && d in s.days && name != ""
    ensures Valid(AppendExercise(s, d, name))
  {
    AppendExerciseFresh(s, d, name);
    AppendExerciseLinks(s, d, name);
    AppendExerciseShape(s, d, name);
  }

  lemma AppendExerciseFresh(s: Store, d: Id, name: string)
    requires IdsFresh(s) && d in s.days
    ensures IdsFresh(AppendExercise(s, d, name))
  {
    BelowGrows(s);
  }

  lemma AppendExerciseLinks(s: Store, d: Id, name: string)
    requires IdsFresh(s) && DayLinks(s.programs, s.days) && ExerciseLinks(s.days, s.exercises)
    requires SetLinks(s.exercises, s.sets) && d in s.days
    ensures var s' := AppendExercise(s, d, name);
            && DayLinks(s'.programs, s'.days)
            && ExerciseLinks(s'.days, s'.exercises)
            && SetLinks(s'.exercises, s'.sets)
  {
    NextIdUnused(s);
  }

  lemma AppendExerciseShape(s: Store, d: Id, name: string)
    requires IdsFresh(s) && DaysWellFormed(s.days) && ExercisesWellFormed(s.exercises)
    requires d in s.days && name != ""
    ensures var s' := AppendExercise(s, d, name);
            DaysWellFormed(s'.days) && ExercisesWellFormed(s'.exercises)
  {
    NextIdUnused(s);
    AppendNoDuplicates(s.days[d].exercises, s.nextId);
  }

  lemma RenameExerciseValid(s: Store, e: Id, name: string)
    requires Valid(s) && e in s.exercises && name != ""
    ensures Valid(RenameExercise(s, e, name))
  {
    RenameExerciseLinks(s, e, name);
    var s' := RenameExercise(s, e, name);
    assert ExercisesWellFormed(s'.exercises);
  }

  lemma RenameExerciseLinks(s: Store, e: Id, name: string)
    requires IdsFresh(s) && ExerciseLinks(s.days, s.exercises) && SetLinks(s.exercises, s.sets)
    requires e in s.exercises
    ensures var s' := RenameExercise(s, e, name);
            IdsFresh(s') && ExerciseLinks(s'.days, s'.exercises) && SetLinks(s'.exercises, s'.sets)
  {
    var s' := RenameExercise(s, e, name);
    assert ExercisesBelow(s'.exercises, s'.nextId);
  }

  lemma AppendDayValid(s: Store, p: Id, dayNumber: real)
    requires Valid(s) && p in s.programs && DayNumberOk(dayNumber)
    ensures Valid(AppendDay(s, p, dayNumber))
  {
    AppendDayFresh(s, p, dayNumber);
    AppendDayLinks(s, p, dayNumber);
    AppendDayShape(s, p, dayNumber);
  }

  lemma AppendDayFresh(s: Store, p: Id, dayNumber: real)
    requires IdsFresh(s) && p in s.programs
    ensures IdsFresh(AppendDay(s, p, dayNumber))
  {
    BelowGrows(s);
  }

  lemma AppendDayLinks(s: Store, p: Id, dayNumber: real)
    requires IdsFresh(s) && DayLinks(s.programs, s.days) && ExerciseLinks(s.days, s.exercises)
    requires p in s.programs
    ensures var s' := AppendDay(s, p, dayNumber);
            DayLinks(s'.programs, s'.days) && ExerciseLinks(s'.days, s'.exercises)
  {
    NextIdUnused(s);
  }

  lemma AppendDayShape(s: Store, p: Id, dayNumber: real)
    requires IdsFresh(s) && ProgramsWellFormed(s.programs) && DaysWellFormed(s.days)
    requires AssigneesExist(s.users, s.programs)
    requires p in s.programs && DayNumberOk(dayNumber)
    ensures var s' := AppendDay(s, p, dayNumber);
            && ProgramsWellFormed(s'.programs) && DaysWellFormed(s'.days)
            && AssigneesExist(s'.users, s'.programs)
  {
    NextIdUnused(s);
    AppendNoDuplicates(s.programs[p].trainingDays, s.nextId);
  }

  lemma InsertProgramValid(s: Store, trainerId: Id, programName: string)
    requires Valid(s) && programName != ""
    ensures Valid(InsertProgram(s, trainerId, programName))
  {
    InsertProgramLinks(s, trainerId, programName);
    var s' := InsertProgram(s, trainerId, programName);
    assert ProgramsWellFormed(s'.programs);
    assert AssigneesExist(s'.users, s'.programs);
  }

  lemma InsertProgramLinks(s: Store, trainerId: Id, programName: string)
    requires IdsFresh(s) && DayLinks(s.programs, s.days)
    ensures var s' := InsertProgram(s, trainerId, programName);
            IdsFresh(s') && DayLinks(s'.programs, s'.days)
  {
    NextIdUnused(s);
    BelowGrows(s);
  }

  lemma RenameProgramValid(s: Store, p: Id, programName: string)
    requires Valid(s) && p in s.programs && programName != ""
    ensures Valid(RenameProgram(s, p, programName))
  {
    var s' := RenameProgram(s, p, programName);
    assert ProgramsBelow(s'.programs, s'.nextId);
    assert DayLinks(s'.programs, s'.days);
    assert ProgramsWellFormed(s'.programs);
    assert AssigneesExist(s'.users, s'.programs);
  }

  lemma AppendAssigneeValid(s: Store, p: Id, u: Id)
    requires Valid(s) && p in s.programs && u in s.users && u !in s.programs[p].assignedUsers
    ensures Valid(AppendAssignee(s, p, u))
  {
    var s' := AppendAssignee(s, p, u);
    assert ProgramsBelow(s'.programs, s'.nextId);
    assert DayLinks(s'.programs, s'.days);
    AppendNoDuplicates(s.programs[p].assignedUsers, u);
    assert ProgramsWellFormed(s'.programs);
    assert AssigneesExist(s'.users, s'.programs);
  }

  lemma InsertUserValid(s: Store, account: Account)
    requires Valid(s)
    requires forall u :: u in s.users ==> s.users[u].email != account.email
    ensures Valid(InsertUser(s, account))
  {
    var s' := InsertUser(s, account);
    NextIdUnused(s);
    BelowGrows(s);
    assert UsersBelow(s'.users, s'.nextId);
    assert EmailsUnique(s'.users);
    assert AssigneesExist(s'.users, s'.programs);
  }
}
