/**
 * The client-side logic of the personal training composable: the nested
 * read of a user's training days, the rows it builds for inserts and
 * updates, and the session duration it computes.
 *
 * Each write operation sends the row built here and hands the backend's
 * answer to the caller under `Backend.Rethrow`; each read hands it back under
 * `Backend.Swallow`.
 */
module Training {
  import opened Backend
  import opened Records
  import FanOut

  /* ---------- getTrainingDays ---------- */

  function DayKey(d: TrainingDay): Id { d.id }
  function DayNumber(d: TrainingDay): int { d.dayNumber }
  function OrderIndex(e: DayExercise): int { e.orderIndex }

  /**
   * `getTrainingDays`: `days` answers the query for the user's days (ordered
   * by day number); `exercisesOf(id)` answers the query for the exercises of
   * the day with that id (ordered by position). Any failure gives `[]`.
   */
  function GetTrainingDays(days: ListResponse<TrainingDay>, exercisesOf: Id -> ListResponse<DayExercise>)
    : (r: Reply<seq<TrainingDayWithExercises>>)
    ensures r.error.None? <==> days.Ok? && FanOut.AllFetched(OrEmpty(days.value), DayKey, exercisesOf)
    ensures r.error.Some? ==> r.outcome == []
    ensures days.Fail? ==> r.error == Some(days.err.message)
    ensures r.error.Some? && days.Ok? ==>
      exists i :: 0 <= i < |OrEmpty(days.value)| && exercisesOf(OrEmpty(days.value)[i].id).Fail?
                  && r.error == Some(exercisesOf(OrEmpty(days.value)[i].id).err.message)
    ensures r.error.None? ==>
      && |r.outcome| == |OrEmpty(days.value)|
      && forall i :: 0 <= i < |r.outcome| ==>
           && r.outcome[i].parent == OrEmpty(days.value)[i]
           && r.outcome[i].children == OrEmpty(exercisesOf(OrEmpty(days.value)[i].id).value)
  {
    match days
    case Fail(e) => Swallow(Fail(e), [])
    case Ok(data) => Swallow(FanOut.NestAll(OrEmpty(data), DayKey, exercisesOf), [])
  }

  /**
   * With the server's ordering as input, the result lists days by day
   * number, each with its exercises by position.
   */
  lemma GetTrainingDaysOrdered(days: ListResponse<TrainingDay>, exercisesOf: Id -> ListResponse<DayExercise>)
    requires days.Ok? && FanOut.Ordered(OrEmpty(days.value), DayNumber)
    requires forall id :: exercisesOf(id).Ok? ==> FanOut.Ordered(OrEmpty(exercisesOf(id).value), OrderIndex)
    ensures var r := GetTrainingDays(days, exercisesOf).outcome;
      && (forall i, j :: 0 <= i < j < |r| ==> r[i].parent.dayNumber <= r[j].parent.dayNumber)
      && (forall i :: 0 <= i < |r| ==> FanOut.Ordered(r[i].children, OrderIndex))
  {
  }

  /**
   * A day whose exercise query returns no rows (for instance after its
   * only exercise was removed) is listed with an empty exercise list.
   */
  lemma EmptyDayIsListed(days: ListResponse<TrainingDay>, exercisesOf: Id -> ListResponse<DayExercise>, i: int)
    requires days.Ok? && 0 <= i < |OrEmpty(days.value)|
    requires exercisesOf(OrEmpty(days.value)[i].id) == Ok(Some([]))
    requires GetTrainingDays(days, exercisesOf).error.None?
    ensures GetTrainingDays(days, exercisesOf).outcome[i] == FanOut.Nested(OrEmpty(days.value)[i], [])
  {
  }

  /* ---------- rows sent by the write operations ---------- */

  /** Insert payload of `createTrainingDay`. */
  datatype TrainingDayInsert = TrainingDayInsert(userId: Id, dayNumber: int, dayName: string, description: Option<string>)

  /** Insert payload of `addExerciseToDay`. */
  datatype DayExerciseInsert = DayExerciseInsert(trainingDayId: Id, exerciseId: Id, prescription: Prescription)

  /** Insert payload of `createTrainingSession`. */
  datatype TrainingSessionInsert = TrainingSessionInsert(userId: Id, trainingDayId: Id, startTime: Millis)

  /** Update payload of `finishTrainingSession`. */
  datatype SessionFinish = SessionFinish(endTime: Millis, durationSeconds: int, completed: bool)

  /** Insert payload of `createExerciseSet`. */
  datatype ExerciseSetInsert = ExerciseSetInsert(
    trainingSessionId: Id,
    dayExerciseId: Id,
    exerciseId: Id,
    setNumber: int,
    weightKg: Option<real>,
    reps: Option<int>,
    restSeconds: Option<int>,
    completed: bool)

  /** Update payload of `updateExerciseOrder`. */
  datatype OrderUpdate = OrderUpdate(orderIndex: int)

  /** `createTrainingDay`: a missing or empty description is stored as null. */
  function TrainingDayRow(userId: Id, dayNumber: int, dayName: string, description: Option<string>): (r: TrainingDayInsert)
    ensures r.userId == userId && r.dayNumber == dayNumber && r.dayName == dayName
    ensures r.description.None? <==> description.None? || description == Some("")
    ensures r.description.Some? ==> r.description == description
  {
    TrainingDayInsert(userId, dayNumber, dayName, EmptyToNull(description))
  }

  /** `addExerciseToDay`: omitted arguments default to 3 sets of "10-12", 60 s rest, position 0. */
  function DayExerciseRow(trainingDayId: Id, exerciseId: Id, sets: Option<int>, reps: Option<string>,
                          restSeconds: Option<int>, orderIndex: Option<int>): (r: DayExerciseInsert)
    ensures r.trainingDayId == trainingDayId && r.exerciseId == exerciseId
    ensures sets.None? ==> r.prescription.sets == 3
    ensures reps.None? ==> r.prescription.reps == "10-12"
    ensures restSeconds.None? ==> r.prescription.restSeconds == 60
    ensures orderIndex.None? ==> r.prescription.orderIndex == 0
    ensures sets.Some? ==> r.prescription.sets == sets.value
    ensures reps.Some? ==> r.prescription.reps == reps.value
    ensures restSeconds.Some? ==> r.prescription.restSeconds == restSeconds.value
    ensures orderIndex.Some? ==> r.prescription.orderIndex == orderIndex.value
  {
    DayExerciseInsert(trainingDayId, exerciseId, PrescriptionOf(sets, reps, restSeconds, orderIndex))
  }

  /** `createTrainingSession`: the session starts at the client's clock reading `nowMs`. */
  function TrainingSessionRow(userId: Id, trainingDayId: Id, nowMs: Millis): (r: TrainingSessionInsert)
    ensures r.userId == userId && r.trainingDayId == trainingDayId && r.startTime == nowMs
  {
    TrainingSessionInsert(userId, trainingDayId, nowMs)
  }

  /**
   * `Math.floor((end - start) / 1000)` on millisecond clock readings: the
   * whole seconds elapsed, rounded down.
   */
  function DurationSeconds(startMs: Millis, endMs: Millis): (d: int)
    ensures d * 1000 <= endMs - startMs < d * 1000 + 1000
    ensures startMs <= endMs ==> d >= 0
  {
    (endMs - startMs) / 1000
  }

  /** A session started 125 000 ms before it ends lasted 125 s. */
  lemma DurationExample(endMs: Millis)
    ensures DurationSeconds(endMs - 125000, endMs) == 125
  {
  }

  /**
   * `finishTrainingSession`: ends the session at the client's clock reading
   * `nowMs`, stores the elapsed whole seconds since `startMs`, and marks it
   * completed.
   */
  function FinishTrainingSession(startMs: Millis, nowMs: Millis): (u: SessionFinish)
    ensures u.completed
    ensures u.endTime == nowMs
    ensures u.durationSeconds * 1000 <= nowMs - startMs < u.durationSeconds * 1000 + 1000
  {
    SessionFinish(nowMs, DurationSeconds(startMs, nowMs), true)
  }

  /**
   * A session stamped at `t0` when created and finished at a later clock
   * reading `t1` ends at `t1`, completed, after a non-negative number of
   * whole seconds that never exceeds the elapsed time.
   */
  lemma SessionStartThenFinish(userId: Id, trainingDayId: Id, t0: Millis, t1: Millis)
    requires t0 <= t1
    ensures var row := TrainingSessionRow(userId, trainingDayId, t0);
      var u := FinishTrainingSession(row.startTime, t1);
      && u.endTime == t1 && u.completed
      && 0 <= u.durationSeconds
      && u.durationSeconds * 1000 <= t1 - t0
      && (t1 - t0 < 1000 ==> u.durationSeconds == 0)
  {
  }

  /** The session row after the backend applies a finish update to it. */
  function ApplyFinish(row: TrainingSession, u: SessionFinish): TrainingSession
  {
    row.(endTime := Some(u.endTime), durationSeconds := Some(u.durationSeconds), completed := u.completed)
  }

  /**
   * Finishing a session sets its end time, duration and completed flag and
   * leaves every other column as it was.
   */
  lemma FinishTouchesOnlyItsColumns(row: TrainingSession, startMs: Millis, nowMs: Millis)
    ensures var t := ApplyFinish(row, FinishTrainingSession(startMs, nowMs));
      && t.completed
      && t.endTime == Some(nowMs)
      && t.durationSeconds == Some(DurationSeconds(startMs, nowMs))
      && t.(endTime := row.endTime, durationSeconds := row.durationSeconds, completed := row.completed) == row
  {
  }

  /** `createExerciseSet`: every logged set is completed; the other arguments are copied as given. */
  function ExerciseSetRow(sessionId: Id, dayExerciseId: Id, exerciseId: Id, setNumber: int,
                          weight: Option<real>, reps: Option<int>, restSeconds: Option<int>): (r: ExerciseSetInsert)
    ensures r.completed
    ensures r.trainingSessionId == sessionId && r.dayExerciseId == dayExerciseId && r.exerciseId == exerciseId
    ensures r.setNumber == setNumber && r.weightKg == weight && r.reps == reps && r.restSeconds == restSeconds
  {
    ExerciseSetInsert(sessionId, dayExerciseId, exerciseId, setNumber, weight, reps, restSeconds, true)
  }

  /**
   * The set row the backend stores for an insert, given the id and creation
   * time it assigns; columns the insert leaves out (`notes`) stay null.
   */
  function StoredSet(ins: ExerciseSetInsert, id: Id, createdAt: Millis): ExerciseSet
  {
    ExerciseSet(id, ins.trainingSessionId, Some(ins.dayExerciseId), Some(ins.exerciseId), ins.setNumber,
                ins.weightKg, ins.reps, ins.completed, ins.restSeconds, None, createdAt)
  }

  /**
   * A logged set is stored completed, linked to its session, day exercise
   * and exercise, with the weight, reps and rest as given.
   */
  lemma LoggedSetIsCompleted(sessionId: Id, dayExerciseId: Id, exerciseId: Id, setNumber: int,
                             weight: Option<real>, reps: Option<int>, restSeconds: Option<int>, id: Id, createdAt: Millis)
    ensures var row := StoredSet(ExerciseSetRow(sessionId, dayExerciseId, exerciseId, setNumber, weight, reps, restSeconds), id, createdAt);
      && row.completed
      && row.trainingSessionId == sessionId
      && row.dayExerciseId == Some(dayExerciseId) && row.exerciseId == Some(exerciseId)
      && row.setNumber == setNumber && row.weightKg == weight && row.reps == reps && row.restSeconds == restSeconds
      && row.notes.None?
  {
  }

  /** `updateExerciseOrder`: the update carries only the new position. */
  function ExerciseOrderUpdate(newOrder: int): (u: OrderUpdate)
    ensures u.orderIndex == newOrder
  {
    OrderUpdate(newOrder)
  }

  /** The day-exercise row after the backend applies an order update to it. */
  function ApplyOrder(row: DayExercise, u: OrderUpdate): DayExercise
  {
    row.(orderIndex := u.orderIndex)
  }

  /** Reordering changes a row's position and nothing else. */
  lemma ReorderTouchesOnlyPosition(row: DayExercise, newOrder: int)
    ensures var t := ApplyOrder(row, ExerciseOrderUpdate(newOrder));
      t.orderIndex == newOrder && t.(orderIndex := row.orderIndex) == row
  {
  }
}
