/**
 * Row shapes of the backend tables the training screens read and write.
 *
 * Timestamps are integer milliseconds; ids are strings. `Exercise` carries
 * the `scope` and `owner_id` columns the trainer composable writes, and the
 * template rows are given minimal shapes matching the columns the client
 * inserts and reads.
 */
module Records {
  import opened Backend
  import FanOut

  datatype Difficulty = Principiante | Intermedio | Avanzado

  /** Visibility tier of an exercise: everyone, one trainer's students, or one user. */
  datatype Scope = GlobalScope | TrainerScope | PersonalScope

  datatype Exercise = Exercise(
    id: Id,
    name: string,
    description: Option<string>,
    muscleGroup: Option<string>,
    difficulty: Option<Difficulty>,
    instructions: Option<string>,
    videoUrl: Option<string>,
    imageUrl: Option<string>,
    createdBy: Option<Id>,
    createdAt: Millis,
    updatedAt: Millis,
    scope: Scope,
    ownerId: Option<Id>)

  datatype TrainingDay = TrainingDay(
    id: Id,
    userId: Id,
    dayNumber: int,
    dayName: string,
    description: Option<string>,
    createdAt: Millis,
    updatedAt: Millis)

  datatype DayExercise = DayExercise(
    id: Id,
    trainingDayId: Id,
    exerciseId: Id,
    sets: int,
    reps: string,
    restSeconds: int,
    notes: Option<string>,
    orderIndex: int,
    createdAt: Millis,
    exercise: Option<Exercise>)

  type TrainingDayWithExercises = FanOut.Nested<TrainingDay, DayExercise>

  datatype TrainingSession = TrainingSession(
    id: Id,
    userId: Id,
    trainingDayId: Option<Id>,
    startTime: Millis,
    endTime: Option<Millis>,
    durationSeconds: Option<int>,
    completed: bool,
    notes: Option<string>,
    createdAt: Millis)

  datatype ExerciseSet = ExerciseSet(
    id: Id,
    trainingSessionId: Id,
    dayExerciseId: Option<Id>,
    exerciseId: Option<Id>,
    setNumber: int,
    weightKg: Option<real>,
    reps: Option<int>,
    completed: bool,
    restSeconds: Option<int>,
    notes: Option<string>,
    createdAt: Millis)

  datatype TrainingTemplate = TrainingTemplate(
    id: Id,
    trainerId: Id,
    name: string,
    description: Option<string>,
    isPublic: bool,
    createdAt: Millis)

  datatype TemplateDay = TemplateDay(
    id: Id,
    templateId: Id,
    dayNumber: int,
    dayName: string,
    description: Option<string>,
    createdAt: Millis)

  datatype TemplateDayExercise = TemplateDayExercise(
    id: Id,
    templateDayId: Id,
    exerciseId: Id,
    sets: int,
    reps: string,
    restSeconds: int,
    notes: Option<string>,
    orderIndex: int,
    exercise: Option<Exercise>)

  type TemplateDayWithExercises = FanOut.Nested<TemplateDay, TemplateDayExercise>

  /** A template spread together with its nested days (`{ ...template, days }`). */
  datatype TrainingTemplateComplete = TrainingTemplateComplete(
    template: TrainingTemplate,
    days: seq<TemplateDayWithExercises>)

  datatype TemplateAssignment = TemplateAssignment(
    id: Id,
    templateId: Id,
    studentId: Id,
    trainerId: Id,
    notes: Option<string>,
    assignedAt: Millis)

  /**
   * The prescription a day or template-day exercise row carries. Both
   * `addExerciseToDay` and `addExerciseToTemplateDay` fill it the same way.
   */
  datatype Prescription = Prescription(sets: int, reps: string, restSeconds: int, orderIndex: int)

  const DefaultSets := 3
  const DefaultReps := "10-12"
  const DefaultRestSeconds := 60
  const DefaultOrderIndex := 0

  /**
   * JavaScript default parameters: an argument passed explicitly is used
   * as given; one left `undefined` takes its default.
   */
  function PrescriptionOf(sets: Option<int>, reps: Option<string>, restSeconds: Option<int>, orderIndex: Option<int>): (p: Prescription)
    ensures sets.Some? ==> p.sets == sets.value
    ensures sets.None? ==> p.sets == DefaultSets
    ensures reps.Some? ==> p.reps == reps.value
    ensures reps.None? ==> p.reps == DefaultReps
    ensures restSeconds.Some? ==> p.restSeconds == restSeconds.value
    ensures restSeconds.None? ==> p.restSeconds == DefaultRestSeconds
    ensures orderIndex.Some? ==> p.orderIndex == orderIndex.value
    ensures orderIndex.None? ==> p.orderIndex == DefaultOrderIndex
  {
    Prescription(
      match sets case Some(n) => n case None => DefaultSets,
      match reps case Some(s) => s case None => DefaultReps,
      match restSeconds case Some(n) => n case None => DefaultRestSeconds,
      match orderIndex case Some(n) => n case None => DefaultOrderIndex)
  }

  /** With every optional argument omitted, the row is 3 sets of "10-12" with 60 s rest at position 0. */
  lemma AllDefaults()
    ensures PrescriptionOf(None, None, None, None) == Prescription(3, "10-12", 60, 0)
  {
  }
}
