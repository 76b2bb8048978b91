/** The activity record every generator builds: one row per (course, student, activity,
    attempt). The source's rows are dictionaries whose every column may hold `None`. */
module Records {
  import opened Wrappers

  /** Timestamps are whole seconds. A generator computes every date field as a base time
      plus a fixed or drawn offset; the ISO string rendering is not modelled. */
  type Timestamp = int

  function Minutes(n: int): int { n * 60 }
  function Hours(n: int): int { n * 3600 }
  function Days(n: int): int { n * 86400 }

  /** The lms_la_* columns, without that prefix. */
  datatype ActivityRecord = ActivityRecord(
    courseId: Option<string>,
    studentId: Option<string>,
    activityId: Option<string>,
    activityType: Option<string>,
    title: Option<string>,
    status: Option<string>,
    publishedDate: Option<Timestamp>,
    unlockedDate: Option<Timestamp>,
    lockedDate: Option<Timestamp>,
    dueDate: Option<Timestamp>,
    timeLimit: Option<int>,
    scoringPolicy: Option<string>,
    pointsPossible: Option<int>,
    allowedAttempts: Option<int>,
    resultId: Option<string>,
    score: Option<real>,
    keptScore: Option<real>,
    attempt: Option<int>,
    gradeViewable: Option<Timestamp>,
    hasSeenResults: Option<bool>,
    totalAttempts: Option<int>,
    startedDate: Option<Timestamp>,
    finishedDate: Option<Timestamp>,
    timeTaken: Option<real>)

  /** The dates a record carries are in order: it is published no later than it is
      unlocked, unlocked no later than it is due, due no later than it locks, and an attempt
      starts no earlier than publication and finishes no earlier than it starts. */
  predicate Timeline(r: ActivityRecord) {
    && r.publishedDate.Some? && r.startedDate.Some? && r.finishedDate.Some?
    && r.publishedDate.value <= r.startedDate.value <= r.finishedDate.value
    && (r.unlockedDate.Some? ==> r.publishedDate.value <= r.unlockedDate.value)
    && (r.unlockedDate.Some? && r.dueDate.Some? ==> r.unlockedDate.value <= r.dueDate.value)
    && (r.dueDate.Some? && r.lockedDate.Some? ==> r.dueDate.value <= r.lockedDate.value)
  }

  /** What every generated record has: the identifying columns, a title, a status and a
      score are present, and its dates are in order. */
  predicate WellFormed(r: ActivityRecord) {
    && r.courseId.Some? && r.studentId.Some? && r.activityId.Some?
    && r.activityType.Some? && r.title.Some? && r.status.Some? && r.score.Some?
    && Timeline(r)
  }
}
