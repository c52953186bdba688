/**
 * The client-side logic of the trainer composable: which exercises a user
 * may see, the rows trainers and users insert, the nested template read,
 * and the two-step template assignment.
 *
 * As in `Training`, each write sends the row built here and hands the
 * backend's answer on under `Backend.Rethrow`; each read under
 * `Backend.Swallow`.
 */
module Trainer {
  import opened Backend
  import opened Records
  import FanOut

  /* ---------- exercise visibility (getAvailableExercises) ---------- */

  /**
   * The `or(...)` filter of `getAvailableExercises`, on one row: global
   * exercises, exercises of scope trainer owned by `trainerId`, and
   * exercises of scope personal owned by `userId`. A missing or empty
   * `trainerId` is sent as the literal `null`, taken here to match no
   * trainer-scoped row.
   */
  predicate Visible(e: Exercise, userId: Id, trainerId: Option<Id>)
    ensures e.scope == GlobalScope ==> Visible(e, userId, trainerId)
    ensures e.scope == TrainerScope ==>
      (Visible(e, userId, trainerId) <==> trainerId.Some? && trainerId.value != "" && e.ownerId == trainerId)
    ensures e.scope == PersonalScope ==> (Visible(e, userId, trainerId) <==> e.ownerId == Some(userId))
  {
    var trainer := EmptyToNull(trainerId);
    || e.scope == GlobalScope
    || (e.scope == TrainerScope && trainer.Some? && e.ownerId == trainer)
    || (e.scope == PersonalScope && e.ownerId == Some(userId))
  }

  /**
   * The rows of a snapshot of the exercises table that the filter selects,
   * in snapshot order (the server's sort by name is not modelled).
   */
  function Available(table: seq<Exercise>, userId: Id, trainerId: Option<Id>): (r: seq<Exercise>)
    ensures forall e :: e in r <==> e in table && Visible(e, userId, trainerId)
    ensures |r| <= |table|
    decreases |table|
  {
    if |table| == 0 then []
    else
      var rest := Available(table[1..], userId, trainerId);
      if Visible(table[0], userId, trainerId) then [table[0]] + rest else rest
  }

  /**
   * Each visible row appears in the result exactly as often as in the
   * snapshot, and no other row appears: the filter neither repeats nor
   * drops rows.
   */
  lemma {:induction false} AvailableCounts(table: seq<Exercise>, userId: Id, trainerId: Option<Id>)
    ensures forall e :: multiset(Available(table, userId, trainerId))[e] == if Visible(e, userId, trainerId) then multiset(table)[e] else 0
    decreases |table|
  {
    if |table| > 0 {
      assert table == [table[0]] + table[1..];
      AvailableCounts(table[1..], userId, trainerId);
    }
  }

  /**
   * `getAvailableExercises`: `table` is the snapshot the query runs over, or
   * the error it reported; a failure gives `[]`.
   */
  function GetAvailableExercises(table: Result<seq<Exercise>>, userId: Id, trainerId: Option<Id>): (r: Reply<seq<Exercise>>)
    ensures r.error.None? <==> table.Ok?
    ensures table.Fail? ==> r.outcome == [] && r.error == Some(table.err.message)
    ensures table.Ok? ==> forall e :: e in r.outcome <==> e in table.value && Visible(e, userId, trainerId)
    ensures table.Ok? ==> forall e :: multiset(r.outcome)[e] == if Visible(e, userId, trainerId) then multiset(table.value)[e] else 0
  {
    match table
    case Fail(e) => Swallow(Fail(e), [])
    case Ok(rows) =>
      AvailableCounts(rows, userId, trainerId);
      Swallow(Ok(Available(rows, userId, trainerId)), [])
  }

  /** Rows of `table` with the given scope and owner. */
  function ScopedTo(table: seq<Exercise>, scope: Scope, owner: Option<Id>): set<Exercise>
  {
    set e | e in table && e.scope == scope && e.ownerId == owner
  }

  /**
   * What a user sees is exactly the union of the global exercises, the
   * exercises of their trainer (none without a trainer), and their own
   * personal exercises; nothing of another trainer or another user.
   */
  lemma AvailableIsUnionOfScopes(table: seq<Exercise>, userId: Id, trainerId: Option<Id>)
    ensures (set e | e in Available(table, userId, trainerId)) ==
      (set e | e in table && e.scope == GlobalScope)
      + (if Truthy(trainerId) then ScopedTo(table, TrainerScope, trainerId) else {})
      + ScopedTo(table, PersonalScope, Some(userId))
  {
  }

  /* ---------- exercise rows (createTrainerExercise / createPersonalExercise) ---------- */

  /** Whether a key is present in a `Partial<...>` object. */
  datatype Field<+T> = Absent | Present(value: T)

  /** A `Partial<Exercise>` as a caller passes it, including `scope` and `owner_id`. */
  datatype PartialExercise = PartialExercise(
    id: Field<Id>,
    name: Field<string>,
    description: Field<Option<string>>,
    muscleGroup: Field<Option<string>>,
    difficulty: Field<Option<Difficulty>>,
    instructions: Field<Option<string>>,
    videoUrl: Field<Option<string>>,
    imageUrl: Field<Option<string>>,
    createdBy: Field<Option<Id>>,
    createdAt: Field<Millis>,
    updatedAt: Field<Millis>,
    scope: Field<Scope>,
    ownerId: Field<Option<Id>>)

  predicate Agrees<T(==)>(f: Field<T>, column: T)
  {
    f.Present? ==> f.value == column
  }

  /** A stored row holds every column the inserted object set. */
  predicate Realizes(row: Exercise, p: PartialExercise)
  {
    && Agrees(p.id, row.id) && Agrees(p.name, row.name) && Agrees(p.description, row.description)
    && Agrees(p.muscleGroup, row.muscleGroup) && Agrees(p.difficulty, row.difficulty)
    && Agrees(p.instructions, row.instructions) && Agrees(p.videoUrl, row.videoUrl)
    && Agrees(p.imageUrl, row.imageUrl) && Agrees(p.createdBy, row.createdBy)
    && Agrees(p.createdAt, row.createdAt) && Agrees(p.updatedAt, row.updatedAt)
    && Agrees(p.scope, row.scope) && Agrees(p.ownerId, row.ownerId)
  }

  /**
   * `createTrainerExercise`: `{ ...exercise, scope: 'trainer', owner_id }`.
   * The spread comes first, so scope and owner are forced whatever the
   * caller passed; every other key is kept.
   */
  function TrainerExerciseRow(trainerId: Id, exercise: PartialExercise): (r: PartialExercise)
    ensures r.scope == Present(TrainerScope) && r.ownerId == Present(Some(trainerId))
    ensures r.(scope := exercise.scope, ownerId := exercise.ownerId) == exercise
  {
    exercise.(scope := Present(TrainerScope), ownerId := Present(Some(trainerId)))
  }

  /** `createPersonalExercise`: as above with scope personal, owned by the user. */
  function PersonalExerciseRow(userId: Id, exercise: PartialExercise): (r: PartialExercise)
    ensures r.scope == Present(PersonalScope) && r.ownerId == Present(Some(userId))
    ensures r.(scope := exercise.scope, ownerId := exercise.ownerId) == exercise
  {
    exercise.(scope := Present(PersonalScope), ownerId := Present(Some(userId)))
  }

  /**
   * An exercise a trainer creates is visible to exactly the users whose
   * trainer is that trainer, whatever scope or owner the caller passed.
   */
  lemma TrainerExerciseReachesOnlyTheirStudents(row: Exercise, trainerId: Id, exercise: PartialExercise,
                                                viewer: Id, viewersTrainer: Option<Id>)
    requires Realizes(row, TrainerExerciseRow(trainerId, exercise))
    ensures Visible(row, viewer, viewersTrainer) <==> trainerId != "" && viewersTrainer == Some(trainerId)
  {
  }

  /** A personal exercise is visible to its owner and to nobody else. */
  lemma PersonalExerciseReachesOnlyItsOwner(row: Exercise, userId: Id, exercise: PartialExercise,
                                            viewer: Id, viewersTrainer: Option<Id>)
    requires Realizes(row, PersonalExerciseRow(userId, exercise))
    ensures Visible(row, viewer, viewersTrainer) <==> viewer == userId
  {
  }

  /* ---------- template rows ---------- */

  /** Insert payload of `createTemplate`. */
  datatype TemplateInsert = TemplateInsert(trainerId: Id, name: string, description: Option<string>)

  /** Insert payload of `createTemplateDay`. */
  datatype TemplateDayInsert = TemplateDayInsert(templateId: Id, dayNumber: int, dayName: string, description: Option<string>)

  /** Insert payload of `addExerciseToTemplateDay`. */
  datatype TemplateDayExerciseInsert = TemplateDayExerciseInsert(templateDayId: Id, exerciseId: Id, prescription: Prescription)

  /** `createTemplate`: a missing or empty description is stored as null. */
  function TemplateRow(trainerId: Id, name: string, description: Option<string>): (r: TemplateInsert)
    ensures r.trainerId == trainerId && r.name == name
    ensures r.description.None? <==> description.None? || description == Some("")
    ensures r.description.Some? ==> r.description == description
  {
    TemplateInsert(trainerId, name, EmptyToNull(description))
  }

  /** `createTemplateDay`: a missing or empty description is stored as null. */
  function TemplateDayRow(templateId: Id, dayNumber: int, dayName: string, description: Option<string>): (r: TemplateDayInsert)
    ensures r.templateId == templateId && r.dayNumber == dayNumber && r.dayName == dayName
    ensures r.description.None? <==> description.None? || description == Some("")
    ensures r.description.Some? ==> r.description == description
  {
    TemplateDayInsert(templateId, dayNumber, dayName, EmptyToNull(description))
  }

  /** `addExerciseToTemplateDay`: omitted arguments default to 3 sets of "10-12", 60 s rest, position 0. */
  function TemplateDayExerciseRow(templateDayId: Id, exerciseId: Id, sets: Option<int>, reps: Option<string>,
                                  restSeconds: Option<int>, orderIndex: Option<int>): (r: TemplateDayExerciseInsert)
    ensures r.templateDayId == templateDayId && r.exerciseId == exerciseId
    ensures sets.None? ==> r.prescription.sets == 3
    ensures reps.None? ==> r.prescription.reps == "10-12"
    ensures restSeconds.None? ==> r.prescription.restSeconds == 60
    ensures orderIndex.None? ==> r.prescription.orderIndex == 0
    ensures sets.Some? ==> r.prescription.sets == sets.value
    ensures reps.Some? ==> r.prescription.reps == reps.value
    ensures restSeconds.Some? ==> r.prescription.restSeconds == restSeconds.value
    ensures orderIndex.Some? ==> r.prescription.orderIndex == orderIndex.value
  {
    TemplateDayExerciseInsert(templateDayId, exerciseId, PrescriptionOf(sets, reps, restSeconds, orderIndex))
  }

  /* ---------- getTemplateComplete ---------- */

  function TemplateDayKey(d: TemplateDay): Id { d.id }
  function TemplateDayNumber(d: TemplateDay): int { d.dayNumber }
  function TemplateOrderIndex(e: TemplateDayExercise): int { e.orderIndex }

  /**
   * `getTemplateComplete`: `template` answers the template lookup, `days`
   * the query for its days, `exercisesOf(id)` the query for the exercises
   * of the day with that id. Any failure gives `null`.
   */
  function GetTemplateComplete(template: Result<TrainingTemplate>, days: ListResponse<TemplateDay>,
                               exercisesOf: Id -> ListResponse<TemplateDayExercise>)
    : (r: Reply<Option<TrainingTemplateComplete>>)
    ensures r.outcome.Some? <==>
      template.Ok? && days.Ok? && FanOut.AllFetched(OrEmpty(days.value), TemplateDayKey, exercisesOf)
    ensures r.error.None? <==> r.outcome.Some?
    ensures template.Fail? ==> r.error == Some(template.err.message)
    ensures template.Ok? && days.Fail? ==> r.error == Some(days.err.message)
    ensures r.error.Some? && template.Ok? && days.Ok? ==>
      exists i :: 0 <= i < |OrEmpty(days.value)| && exercisesOf(OrEmpty(days.value)[i].id).Fail?
                  && r.error == Some(exercisesOf(OrEmpty(days.value)[i].id).err.message)
    ensures r.outcome.Some? ==>
      && r.outcome.value.template == template.value
      && |r.outcome.value.days| == |OrEmpty(days.value)|
      && forall i :: 0 <= i < |r.outcome.value.days| ==>
           && r.outcome.value.days[i].parent == OrEmpty(days.value)[i]
           && r.outcome.value.days[i].children == OrEmpty(exercisesOf(OrEmpty(days.value)[i].id).value)
  {
    match template
    case Fail(e) => Swallow(Fail(e), None)
    case Ok(t) =>
      match days
      case Fail(e) => Swallow(Fail(e), None)
      case Ok(data) =>
        match FanOut.NestAll(OrEmpty(data), TemplateDayKey, exercisesOf)
        case Fail(e) => Swallow(Fail(e), None)
        case Ok(nested) => Swallow(Ok(Some(TrainingTemplateComplete(t, nested))), None)
  }

  /**
   * With the server's ordering as input, a complete template lists its days
   * by day number, each with its exercises by position.
   */
  lemma GetTemplateCompleteOrdered(template: Result<TrainingTemplate>, days: ListResponse<TemplateDay>,
                                   exercisesOf: Id -> ListResponse<TemplateDayExercise>)
    requires days.Ok? && FanOut.Ordered(OrEmpty(days.value), TemplateDayNumber)
    requires forall id :: exercisesOf(id).Ok? ==> FanOut.Ordered(OrEmpty(exercisesOf(id).value), TemplateOrderIndex)
    requires GetTemplateComplete(template, days, exercisesOf).outcome.Some?
    ensures var ds := GetTemplateComplete(template, days, exercisesOf).outcome.value.days;
      && (forall i, j :: 0 <= i < j < |ds| ==> ds[i].parent.dayNumber <= ds[j].parent.dayNumber)
      && (forall i :: 0 <= i < |ds| ==> FanOut.Ordered(ds[i].children, TemplateOrderIndex))
  {
  }

  /* ---------- assignTemplateToStudent ---------- */

  /** Insert payload of `assignTemplateToStudent`'s first step. */
  datatype AssignmentInsert = AssignmentInsert(templateId: Id, studentId: Id, trainerId: Id, notes: Option<string>)

  /** The backend procedure call `copy_template_to_user(p_template_id, p_user_id)`. */
  datatype CopyCall = CopyCall(templateId: Id, userId: Id)

  /**
   * One run of `assignTemplateToStudent`: the assignment row sent, the copy
   * procedure call made (if any), the assignment row the backend holds
   * afterwards (if any), and what the caller gets.
   */
  datatype AssignRun = AssignRun(
    sent: AssignmentInsert,
    copy: Option<CopyCall>,
    stored: Option<TemplateAssignment>,
    reply: Reply<Result<TemplateAssignment>>)

  /** A missing or empty note is stored as null. */
  function AssignmentRow(templateId: Id, studentId: Id, trainerId: Id, notes: Option<string>): (r: AssignmentInsert)
    ensures r.templateId == templateId && r.studentId == studentId && r.trainerId == trainerId
    ensures r.notes.None? <==> notes.None? || notes == Some("")
    ensures r.notes.Some? ==> r.notes == notes
  {
    AssignmentInsert(templateId, studentId, trainerId, EmptyToNull(notes))
  }

  /**
   * `assignTemplateToStudent`: `inserted` answers the assignment insert,
   * `copied` the copy procedure. The copy runs only after a successful
   * insert; the call succeeds only if both do and then returns the inserted
   * assignment. Nothing undoes the insert when the copy fails.
   */
  function AssignTemplateToStudent(templateId: Id, studentId: Id, trainerId: Id, notes: Option<string>,
                                   inserted: Result<TemplateAssignment>, copied: Result<()>): (r: AssignRun)
    ensures r.sent == AssignmentRow(templateId, studentId, trainerId, notes)
    ensures r.copy.Some? <==> inserted.Ok?
    ensures r.copy.Some? ==> r.copy.value == CopyCall(templateId, studentId)
    ensures r.stored.Some? <==> inserted.Ok?
    ensures r.stored.Some? ==> r.stored.value == inserted.value
    ensures r.reply.outcome.Ok? <==> inserted.Ok? && copied.Ok?
    ensures r.reply.outcome.Ok? ==> r.reply.outcome.value == inserted.value
    ensures inserted.Fail? ==> r.reply.outcome == Fail(inserted.err)
    ensures inserted.Ok? && copied.Fail? ==> r.reply.outcome == Fail(copied.err)
    ensures r.reply.error.None? <==> r.reply.outcome.Ok?
    ensures r.reply.outcome.Fail? ==> r.reply.error == Some(r.reply.outcome.err.message)
  {
    var sent := AssignmentRow(templateId, studentId, trainerId, notes);
    match inserted
    case Fail(e) => AssignRun(sent, None, None, Rethrow(Fail(e)))
    case Ok(assignment) =>
      var copy := CopyCall(templateId, studentId);
      match copied
      case Fail(e) => AssignRun(sent, Some(copy), Some(assignment), Rethrow(Fail(e)))
      case Ok(_) => AssignRun(sent, Some(copy), Some(assignment), Rethrow(Ok(assignment)))
  }

  /**
   * The assignment is not atomic: a copy that fails after a successful
   * insert reaches the caller as an error while the assignment row stays.
   */
  lemma FailedCopyLeavesAssignment(templateId: Id, studentId: Id, trainerId: Id, notes: Option<string>,
                                   assignment: TemplateAssignment, copyError: Err)
    ensures var r := AssignTemplateToStudent(templateId, studentId, trainerId, notes, Ok(assignment), Fail(copyError));
      && r.reply.outcome == Fail(copyError)
      && r.reply.error == Some(copyError.message)
      && r.stored == Some(assignment)
      && r.copy == Some(CopyCall(templateId, studentId))
  {
  }
}
