/** The persistent state of the backend: the User collection and the four
    collections of the normalized program hierarchy (Program, TrainingDay,
    Exercise, Set), each a map from document id to document. In this model a
    parent keeps the ordered list of its children's ids (for a program, the
    ids its route pushes) and every child keeps its parent's id. Ids are
    drawn from one counter, as document ids are unique across collections. */
module Store {
  import opened Common

  type Id = nat

  /** `'trainer' | 'user'` */
  datatype Role = Trainer | User

  /** The identity a verified token carries (`{ id, role }`), which the
      authentication middleware stores as `req.user`. */
  datatype Payload = Payload(id: Id, role: Role)

  /** A document of the User model; `password` holds the hash only. */
  datatype Account = Account(email: string, password: string, role: Role)

  datatype Program = Program(
    trainerId: Id,
    programName: string,
    trainingDays: seq<Id>,
    assignedUsers: seq<Id>)

  datatype TrainingDay = TrainingDay(programId: Id, dayNumber: real, exercises: seq<Id>)

  datatype Exercise = Exercise(trainingDayId: Id, name: string, sets: seq<Id>)

  /** One working set: repetitions and load. */
  datatype WorkSet = WorkSet(exerciseId: Id, reps: real, weight: real)

  datatype Store = Store(
    users: map<Id, Account>,
    programs: map<Id, Program>,
    days: map<Id, TrainingDay>,
    exercises: map<Id, Exercise>,
    sets: map<Id, WorkSet>,
    nextId: Id)

  /** The store of a freshly started backend. */
  const Empty := Store(map[], map[], map[], map[], map[], 0)

  /** The primitives the routes call but whose internals are not modelled:
      the email syntax check, the password hash and its comparison, and the
      token signer and verifier. */
  datatype Env = Env(
    isEmail: string -> bool,
    hash: string -> string,
    compare: (string, string) -> bool,
    sign: Payload -> string,
    verify: string -> Option<Payload>)

  // Field constraints enforced by the request validators.

  /** `isInt({ min: 1 })` on `reps`. */
  predicate RepsOk(reps: real) { IsInteger(reps) && reps >= 1.0 }

  /** `isFloat({ min: 0 })` on `weight`. */
  predicate WeightOk(weight: real) { weight >= 0.0 }

  /** `isInt({ min: 1 })` on `dayNumber`. */
  predicate DayNumberOk(dayNumber: real) { IsInteger(dayNumber) && dayNumber >= 1.0 }

  /** `notEmpty()` on a string field. */
  predicate NonEmpty(s: Option<string>) { s.Some? && s.value != "" }

  // The ownership walk. Populating a reference to a deleted document yields
  // null, and reading a field of null throws; the walk therefore either
  // reaches a Program and yields its trainer or is broken (None).

  /** Trainer of the program a training day belongs to. */
  function DayOwner(s: Store, d: Id): (t: Option<Id>)
    requires d in s.days
    ensures t.Some? <==> s.days[d].programId in s.programs
    ensures t.Some? ==> t.value == s.programs[s.days[d].programId].trainerId
  {
    var p := s.days[d].programId;
    if p in s.programs then Some(s.programs[p].trainerId) else None
  }

  /** Trainer at the root of an exercise's chain. */
  function ExerciseOwner(s: Store, e: Id): (t: Option<Id>)
    requires e in s.exercises
    ensures var d := s.exercises[e].trainingDayId;
            t.Some? <==> d in s.days && s.days[d].programId in s.programs
    ensures var d := s.exercises[e].trainingDayId;
            t.Some? ==> t.value == s.programs[s.days[d].programId].trainerId
  {
    var d := s.exercises[e].trainingDayId;
    if d in s.days then DayOwner(s, d) else None
  }

  /** Trainer at the root of a set's chain. */
  function SetOwner(s: Store, x: Id): (t: Option<Id>)
    requires x in s.sets
    ensures var e := s.sets[x].exerciseId;
            t.Some? <==> && e in s.exercises && s.exercises[e].trainingDayId in s.days
                         && s.days[s.exercises[e].trainingDayId].programId in s.programs
    ensures var e := s.sets[x].exerciseId;
            t.Some? ==> t.value == s.programs[s.days[s.exercises[e].trainingDayId].programId].trainerId
  {
    var e := s.sets[x].exerciseId;
    if e in s.exercises then ExerciseOwner(s, e) else None
  }

  /** `Program.findOne({ _id: p, trainerId })` finds a document. The
      program routes check ownership with this query, not with the walk. */
  predicate OwnsProgram(s: Store, caller: Payload, p: Id) {
    p in s.programs && s.programs[p].trainerId == caller.id
  }

  /** The query and the walk agree: the walk from a day reaches the caller
      exactly when the query finds the day's program for the caller. */
  lemma OwnershipChecksAgree(s: Store, caller: Payload, d: Id)
    requires d in s.days
    ensures DayOwner(s, d) == Some(caller.id) <==> OwnsProgram(s, caller, s.days[d].programId)
  {
  }

  // The store invariant: what every reachable store satisfies. Each part
  // reads only the collections it is about, so an operation that leaves
  // those collections alone visibly keeps that part.

  /** Every id in use, as a key, in a list or as a parent reference, was
      drawn before `n`. */
  ghost predicate UsersBelow(users: map<Id, Account>, n: Id) {
    forall u :: u in users ==> u < n
  }

  ghost predicate ProgramsBelow(programs: map<Id, Program>, n: Id) {
    forall p :: p in programs ==> p < n && forall d :: d in programs[p].trainingDays ==> d < n
  }

  ghost predicate DaysBelow(days: map<Id, TrainingDay>, n: Id) {
    forall d :: d in days ==> d < n && days[d].programId < n && forall e :: e in days[d].exercises ==> e < n
  }

  ghost predicate ExercisesBelow(exercises: map<Id, Exercise>, n: Id) {
    forall e :: e in exercises ==>
      e < n && exercises[e].trainingDayId < n && forall x :: x in exercises[e].sets ==> x < n
  }

  ghost predicate SetsBelow(sets: map<Id, WorkSet>, n: Id) {
    forall x :: x in sets ==> x < n && sets[x].exerciseId < n
  }

  ghost predicate IdsFresh(s: Store) {
    && UsersBelow(s.users, s.nextId)
    && ProgramsBelow(s.programs, s.nextId)
    && DaysBelow(s.days, s.nextId)
    && ExercisesBelow(s.exercises, s.nextId)
    && SetsBelow(s.sets, s.nextId)
  }

  /** A listed child that still exists points back to the parent listing it,
      and a child whose parent exists is listed by that parent. */
  ghost predicate DayLinks(programs: map<Id, Program>, days: map<Id, TrainingDay>) {
    && (forall p, d :: p in programs && d in programs[p].trainingDays && d in days
          ==> days[d].programId == p)
    && (forall d :: d in days && days[d].programId in programs
          ==> d in programs[days[d].programId].trainingDays)
  }

  ghost predicate ExerciseLinks(days: map<Id, TrainingDay>, exercises: map<Id, Exercise>) {
    && (forall d, e :: d in days && e in days[d].exercises && e in exercises
          ==> exercises[e].trainingDayId == d)
    && (forall e :: e in exercises && exercises[e].trainingDayId in days
          ==> e in days[exercises[e].trainingDayId].exercises)
  }

  ghost predicate SetLinks(exercises: map<Id, Exercise>, sets: map<Id, WorkSet>) {
    && (forall e, x :: e in exercises && x in exercises[e].sets && x in sets
          ==> sets[x].exerciseId == e)
    && (forall x :: x in sets && sets[x].exerciseId in exercises
          ==> x in exercises[sets[x].exerciseId].sets)
  }

  /** Stored names passed `notEmpty()`, numbers passed their range checks,
      and no id is listed twice by the same parent. */
  ghost predicate ProgramsWellFormed(programs: map<Id, Program>) {
    forall p :: p in programs ==>
      && programs[p].programName != ""
      && NoDuplicates(programs[p].trainingDays)
      && NoDuplicates(programs[p].assignedUsers)
  }

  ghost predicate DaysWellFormed(days: map<Id, TrainingDay>) {
    forall d :: d in days ==> DayNumberOk(days[d].dayNumber) && NoDuplicates(days[d].exercises)
  }

  ghost predicate ExercisesWellFormed(exercises: map<Id, Exercise>) {
    forall e :: e in exercises ==> exercises[e].name != "" && NoDuplicates(exercises[e].sets)
  }

  ghost predicate SetsWellFormed(sets: map<Id, WorkSet>) {
    forall x :: x in sets ==> RepsOk(sets[x].reps) && WeightOk(sets[x].weight)
  }

  /** Emails identify accounts. */
  ghost predicate EmailsUnique(users: map<Id, Account>) {
    forall u, v :: u in users && v in users && users[u].email == users[v].email ==> u == v
  }

  /** Only existing accounts are assigned to programs. */
  ghost predicate AssigneesExist(users: map<Id, Account>, programs: map<Id, Program>) {
    forall p, u :: p in programs && u in programs[p].assignedUsers ==> u in users
  }

  ghost predicate Valid(s: Store) {
    && IdsFresh(s)
    && DayLinks(s.programs, s.days)
    && ExerciseLinks(s.days, s.exercises)
    && SetLinks(s.exercises, s.sets)
    && ProgramsWellFormed(s.programs)
    && DaysWellFormed(s.days)
    && ExercisesWellFormed(s.exercises)
    && SetsWellFormed(s.sets)
    && EmailsUnique(s.users)
    && AssigneesExist(s.users, s.programs)
  }

  /** The records of one trainer's tree are as they were: the programs it
      owns and every day, exercise and set whose chain ends at one of them. */
  ghost predicate TreeUnchanged(s: Store, s': Store, trainer: Id) {
    && (forall p :: p in s.programs && s.programs[p].trainerId == trainer ==>
          p in s'.programs && s'.programs[p] == s.programs[p])
    && (forall d :: d in s.days && DayOwner(s, d) == Some(trainer) ==>
          d in s'.days && s'.days[d] == s.days[d])
    && (forall e :: e in s.exercises && ExerciseOwner(s, e) == Some(trainer) ==>
          e in s'.exercises && s'.exercises[e] == s.exercises[e])
    && (forall x :: x in s.sets && SetOwner(s, x) == Some(trainer) ==>
          x in s'.sets && s'.sets[x] == s.sets[x])
  }

  lemma EmptyValid()
    ensures Valid(Empty)
  {
  }

  /** Every bound on the ids in use also holds for the next counter value. */
  lemma BelowGrows(s: Store)
    requires IdsFresh(s)
    ensures UsersBelow(s.users, s.nextId + 1) && ProgramsBelow(s.programs, s.nextId + 1)
    ensures DaysBelow(s.days, s.nextId + 1) && ExercisesBelow(s.exercises, s.nextId + 1)
    ensures SetsBelow(s.sets, s.nextId + 1)
  {
  }

  /** The next id is not in use anywhere in a valid store. */
  lemma NextIdUnused(s: Store)
    requires IdsFresh(s)
    ensures s.nextId !in s.users && s.nextId !in s.programs && s.nextId !in s.days
    ensures s.nextId !in s.exercises && s.nextId !in s.sets
    ensures forall p :: p in s.programs ==> s.nextId !in s.programs[p].trainingDays
    ensures forall d :: d in s.days ==> s.nextId !in s.days[d].exercises
    ensures forall e :: e in s.exercises ==> s.nextId !in s.exercises[e].sets
    ensures forall d :: d in s.days ==> s.days[d].programId != s.nextId
    ensures forall e :: e in s.exercises ==> s.exercises[e].trainingDayId != s.nextId
    ensures forall x :: x in s.sets ==> s.sets[x].exerciseId != s.nextId
  {
  }
}
