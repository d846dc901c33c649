/** Request sequences from a freshly started backend, followed route by
    route. */
module Scenarios {
  import opened Common
  import opened Store
  import opened Http
  import AuthRoutes
  import Programs
  import TrainingDays
  import Exercises
  import Sets
  import Users

  // The stores the first scenario passes through.

  function Registered(env: Env): Store {
    Empty.(users := map[0 := Account("t@x.com", env.hash("secret1"), Trainer)], nextId := 1)
  }

  function WithProgram(env: Env): Store {
    Registered(env).(programs := map[1 := Program(0, "Strength", [], [])], nextId := 2)
  }

  function WithDay(env: Env): Store {
    WithProgram(env).(programs := map[1 := Program(0, "Strength", [2], [])],
                      days := map[2 := TrainingDay(1, 1.0, [])], nextId := 3)
  }

  function WithExercise(env: Env): Store {
    WithDay(env).(days := map[2 := TrainingDay(1, 1.0, [3])],
                  exercises := map[3 := Exercise(2, "Squat", [])], nextId := 4)
  }

  function WithSet(env: Env): Store {
    WithExercise(env).(exercises := map[3 := Exercise(2, "Squat", [4])],
                       sets := map[4 := WorkSet(3, 5.0, 100.0)], nextId := 5)
  }

  const Coach := Payload(0, Trainer)

  lemma RegisterStep(env: Env)
    requires env.isEmail("t@x.com")
    ensures AuthRoutes.Register(env, Empty, Some("t@x.com"), Some("secret1"), Some("trainer"))
            == Step(Response(Created, Message("User registered successfully")), Registered(env))
  {
  }

  lemma LoginStep(env: Env)
    requires env.isEmail("t@x.com")
    requires env.compare("secret1", env.hash("secret1"))
    ensures AuthRoutes.Login(env, Registered(env), Some("t@x.com"), Some("secret1"))
            == Step(Response(Ok, Token(env.sign(Coach), Trainer)), Registered(env))
  {
    EmptyValid();
    AuthRoutes.RegisterThenLogin(env, Empty, Some("t@x.com"), Some("secret1"), Some("trainer"));
  }

  lemma CreateStep(env: Env)
    ensures Programs.CreateProgram(Registered(env), Coach, Some("Strength"))
            == Step(Response(Created, Saved("Program created successfully", 1)), WithProgram(env))
  {
  }

  lemma AddDayStep(env: Env)
    ensures TrainingDays.AddTrainingDay(WithProgram(env), Coach, Some(1), Some(1.0))
            == Step(Response(Created, Saved("Training day added to program", 2)), WithDay(env))
  {
    var s := WithProgram(env);
    assert OwnsProgram(s, Coach, 1);
    assert s.programs[1].trainingDays + [2] == [2];
    assert s.programs[1 := s.programs[1].(trainingDays := [2])] == WithDay(env).programs;
    assert s.days[2 := TrainingDay(1, 1.0, [])] == WithDay(env).days;
  }

  lemma AddExerciseStep(env: Env)
    ensures Exercises.AddExercise(WithDay(env), Coach, Some(2), Some("Squat"))
            == Step(Response(Created, Saved("Exercise added to training day", 3)), WithExercise(env))
  {
    var s := WithDay(env);
    assert DayOwner(s, 2) == Some(0);
    assert s.days[2].exercises + [3] == [3];
    assert s.days[2 := s.days[2].(exercises := [3])] == WithExercise(env).days;
    assert s.exercises[3 := Exercise(2, "Squat", [])] == WithExercise(env).exercises;
  }

  lemma AddSetStep(env: Env)
    ensures Sets.AddSet(WithExercise(env), Coach, Some(3), Some(5.0), Some(100.0))
            == Step(Response(Created, Saved("Set added to exercise", 4)), WithSet(env))
  {
    var s := WithExercise(env);
    assert ExerciseOwner(s, 3) == Some(0);
    assert s.exercises[3].sets + [4] == [4];
    assert s.exercises[3 := s.exercises[3].(sets := [4])] == WithSet(env).exercises;
    assert s.sets[4 := WorkSet(3, 5.0, 100.0)] == WithSet(env).sets;
  }

  /** A trainer registers and logs in, then builds a program "Strength"
      with day 1, exercise "Squat" and one set of 5 reps at 100: every
      step is accepted and the store ends up holding exactly that tree,
      linked both ways. Ids are handed out in request order. */
  lemma BuildOneProgram(env: Env)
    requires env.isEmail("t@x.com")
    requires env.compare("secret1", env.hash("secret1"))
    ensures var s1 := AuthRoutes.Register(env, Empty, Some("t@x.com"), Some("secret1"), Some("trainer")).store;
            var s2 := Programs.CreateProgram(s1, Coach, Some("Strength")).store;
            var s3 := TrainingDays.AddTrainingDay(s2, Coach, Some(1), Some(1.0)).store;
            var s4 := Exercises.AddExercise(s3, Coach, Some(2), Some("Squat")).store;
            var s5 := Sets.AddSet(s4, Coach, Some(3), Some(5.0), Some(100.0)).store;
            && AuthRoutes.Login(env, s1, Some("t@x.com"), Some("secret1")).response
               == Response(Ok, Token(env.sign(Coach), Trainer))
            && s5.programs == map[1 := Program(0, "Strength", [2], [])]
            && s5.days == map[2 := TrainingDay(1, 1.0, [3])]
            && s5.exercises == map[3 := Exercise(2, "Squat", [4])]
            && s5.sets == map[4 := WorkSet(3, 5.0, 100.0)]
  {
    RegisterStep(env);
    LoginStep(env);
    CreateStep(env);
    AddDayStep(env);
    AddExerciseStep(env);
    AddSetStep(env);
  }

  /** A trainer assigns its program to one user: that user's list shows the
      program, another user's list does not. */
  lemma AssignToOneUser(s: Store, trainer: Payload, programId: Id, assignee: Id, other: Id, role: Role)
    requires Valid(s)
    requires OwnsProgram(s, trainer, programId) && trainer.role == Trainer
    requires assignee in s.users && other != assignee
    requires other !in s.programs[programId].assignedUsers
    ensures var s1 := Programs.AssignProgram(s, trainer, programId, Some(assignee)).store;
            && programId in Users.GetPrograms(s1, Payload(assignee, role)).response.body.programs
            && programId !in Users.GetPrograms(s1, Payload(other, role)).response.body.programs
  {
  }

  /** Deleting a training day and then one of the sets below it: the set
      outlived its exercise, so the delete walks a broken chain and
      answers 500, leaving the set in place. */
  lemma OrphanedSetCannotBeDeleted(s: Store, trainer: Payload, d: Id, x: Id)
    requires TrainingDays.DeleteTrainingDay(s, trainer, d).response.status == Ok
    requires x in s.sets && s.sets[x].exerciseId in s.exercises
    requires s.exercises[s.sets[x].exerciseId].trainingDayId == d
    ensures var s1 := TrainingDays.DeleteTrainingDay(s, trainer, d).store;
            Sets.DeleteSet(s1, trainer, x) == Step(Response(ServerError, Error("Server error")), s1)
  {
    TrainingDays.DeleteTrainingDayOrphansSets(s, trainer, d, x);
  }
}
