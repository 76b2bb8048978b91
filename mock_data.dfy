/** The five mock generators (generate_mock_assignment_data, ..._quiz_data, ..._lesson_data,
    ..._h5p_data, ..._other_data). Each runs `for i in range(num_records)` and appends one
    record per iteration. What `random` and `datetime.now()` return on iteration i is the
    draw `draws[i]`; a valid draw stays within the ranges the generator asks for. */
module MockData {
  import opened Wrappers
  import opened Decimal
  import opened Records

  /** The values one loop iteration draws. Each generator reads the fields it uses; the
      clock is the value of `datetime.now()` on that iteration. */
  datatype Draw = Draw(
    clock: Timestamp,
    daysAgo: int,
    course: int,
    student: int,
    resultId: int,
    instance: int,
    version: int,
    otherType: string,
    titleWord: string,
    status: string,
    timeLimit: Option<int>,
    scoringPolicy: string,
    pointsPossible: int,
    allowedAttempts: Option<int>,
    score: real,
    keptScore: real,
    attempt: int,
    totalAttempts: int,
    finishOffset: int,
    timeTaken: real)

  /** A draw within the ranges of generate_mock_assignment_data and, once a few fields are
      changed, of the other generators. */
  const SampleDraw := Draw(
    clock := 0, daysAgo := 1, course := 1000, student := 10000, resultId := 1000,
    instance := 100, version := 0, otherType := "forum", titleWord := "Essay",
    status := "published", timeLimit := None, scoringPolicy := "manual",
    pointsPossible := 10, allowedAttempts := None, score := 0.0, keptScore := 0.0,
    attempt := 1, totalAttempts := 1, finishOffset := 5, timeTaken := 0.0)

  const Statuses: seq<string> := ["published", "unpublished"]
  const OtherTypes: seq<string> := ["forum", "workshop", "glossary", "wiki", "choice"]
  const OtherPoints: seq<int> := [5, 10, 20]

  /** `str(random.randint(...))` for the course, student and result ids. */
  predicate IdsValid(d: Draw) {
    1000 <= d.course <= 9999 && 10000 <= d.student <= 99999 && 1000 <= d.resultId <= 9999
  }

  /** Course, student and result ids of a record are decimal strings in their ranges. */
  predicate IdsInRange(r: ActivityRecord) {
    && r.courseId.Some? && DecimalIn(r.courseId.value, 1000, 9999)
    && r.studentId.Some? && DecimalIn(r.studentId.value, 10000, 99999)
    && r.resultId.Some? && DecimalIn(r.resultId.value, 1000, 9999)
  }

  /** The activity id starts with `prefix` followed by an instance number in [lo, hi]. */
  predicate ActivityIdIn(r: ActivityRecord, prefix: string, lo: int, hi: int) {
    && r.activityId.Some?
    && var n := NumberAfter(prefix, r.activityId.value);
       n.Some? && lo <= n.value <= hi
  }

  /** The title carries the record's 1-based position right after `prefix`. */
  predicate NumberedTitle(r: ActivityRecord, prefix: string, i: nat) {
    r.title.Some? && NumberAfter(prefix, r.title.value) == Some(i + 1)
  }

  /** The attempt number and the attempt total are present and in [1, maxAttempt] and
      [1, maxTotal]. */
  predicate AttemptsIn(r: ActivityRecord, maxAttempt: int, maxTotal: int) {
    && r.attempt.Some? && 1 <= r.attempt.value <= maxAttempt
    && r.totalAttempts.Some? && 1 <= r.totalAttempts.value <= maxTotal
  }

  /** The record was published between `days` days and one day before `clock`. */
  predicate PublishedWithin(r: ActivityRecord, clock: Timestamp, days: int) {
    r.publishedDate.Some? && clock - Days(days) <= r.publishedDate.value <= clock - Days(1)
  }

  /** `len(range(n))`. */
  function RangeLength(n: int): nat {
    if n < 0 then 0 else n
  }

  /** The id columns and their round trip through `str`, shared by all generators. */
  lemma IdsShown(d: Draw)
    requires IdsValid(d)
    ensures DecimalIn(Show(d.course), 1000, 9999)
    ensures DecimalIn(Show(d.student), 10000, 99999)
    ensures DecimalIn(Show(d.resultId), 1000, 9999)
  {
    ShowIn(d.course, 1000, 9999);
    ShowIn(d.student, 10000, 99999);
    ShowIn(d.resultId, 1000, 9999);
  }

  /** An id written `prefix + str(instance) + "_" + str(version)` starts with `prefix` and
      the instance number. */
  lemma IdShown(prefix: string, instance: nat, version: nat)
    ensures NumberAfter(prefix, prefix + Show(instance) + "_" + Show(version)) == Some(instance)
  {
    var rest := "_" + Show(version);
    assert rest[0] == '_';
    NumberAfterShow(prefix, instance, rest);
    assert prefix + Show(instance) + "_" + Show(version) == prefix + Show(instance) + rest;
  }

  /** Records whose titles are numbered by position after one fixed prefix have pairwise
      distinct titles. */
  lemma NumberedTitlesDistinct(rs: seq<ActivityRecord>, prefix: string)
    requires forall k :: 0 <= k < |rs| ==> NumberedTitle(rs[k], prefix, k)
    ensures forall i, j :: 0 <= i < j < |rs| ==> rs[i].title != rs[j].title
  {
    forall i, j | 0 <= i < j < |rs|
      ensures rs[i].title != rs[j].title
    {
      assert NumberAfter(prefix, rs[i].title.value) == Some(i + 1);
      assert NumberAfter(prefix, rs[j].title.value) == Some(j + 1);
    }
  }

  // ---------------------------------------------------------------- assignments

  const AssignmentWords: seq<string> := ["Essay", "Project", "Report", "Analysis"]
  const AssignmentTimeLimits: seq<Option<int>> := [None, Some(60), Some(120), Some(180)]
  const AssignmentPolicies: seq<string> := ["single_attempt", "manual", "until_pass"]
  const AssignmentPoints: seq<int> := [10, 20, 50, 100]
  const AssignmentAllowedAttempts: seq<Option<int>> := [Some(1), Some(3), Some(5), None]

  predicate ValidAssignmentDraw(d: Draw) {
    && 1 <= d.daysAgo <= 90 && IdsValid(d)
    && 100 <= d.instance <= 999 && 0 <= d.version <= 5
    && d.titleWord in AssignmentWords && d.status in Statuses
    && d.timeLimit in AssignmentTimeLimits
    && d.scoringPolicy in AssignmentPolicies
    && d.pointsPossible in AssignmentPoints
    && d.allowedAttempts in AssignmentAllowedAttempts
    && 1 <= d.attempt <= 3 && 1 <= d.totalAttempts <= 5
  }

  /** A draw of generate_mock_assignment_data, within the ranges it draws from. */
  type AssignmentDraw = d: Draw | ValidAssignmentDraw(d) witness SampleDraw

  /** What every assignment record satisfies: type "assignment", id "assign_<100..999>_...",
      the title "Assignment <i+1>: ...", ids in range, unlocked, due and lock dates present
      and ordered after publication, and the drawn columns within their choices. */
  predicate IsAssignment(r: ActivityRecord, i: nat) {
    && WellFormed(r) && IdsInRange(r)
    && r.activityType == Some("assignment")
    && ActivityIdIn(r, "assign_", 100, 999)
    && NumberedTitle(r, "Assignment ", i)
    && r.status.value in Statuses
    && r.unlockedDate.Some? && r.dueDate.Some? && r.lockedDate.Some?
    && r.timeLimit in AssignmentTimeLimits
    && r.scoringPolicy.Some? && r.scoringPolicy.value in AssignmentPolicies
    && r.pointsPossible.Some? && r.pointsPossible.value in AssignmentPoints
    && r.allowedAttempts in AssignmentAllowedAttempts
    && AttemptsIn(r, 3, 5)
    && r.hasSeenResults.None?
  }

  /** The dictionary appended on iteration i of generate_mock_assignment_data. */
  function AssignmentRecord(i: nat, d: AssignmentDraw): ActivityRecord {
    var base := d.clock - Days(d.daysAgo);
    var titleRest := ": " + d.titleWord;
    ActivityRecord(
      courseId := Some(Show(d.course)),
      studentId := Some(Show(d.student)),
      activityId := Some("assign_" + Show(d.instance) + "_" + Show(d.version)),
      activityType := Some("assignment"),
      title := Some("Assignment " + Show(i + 1) + titleRest),
      status := Some(d.status),
      publishedDate := Some(base),
      unlockedDate := Some(base + Hours(1)),
      lockedDate := Some(base + Days(14)),
      dueDate := Some(base + Days(7)),
      timeLimit := d.timeLimit,
      scoringPolicy := Some(d.scoringPolicy),
      pointsPossible := Some(d.pointsPossible),
      allowedAttempts := d.allowedAttempts,
      resultId := Some(Show(d.resultId)),
      score := Some(d.score),
      keptScore := Some(d.keptScore),
      attempt := Some(d.attempt),
      gradeViewable := Some(base + Days(8)),
      hasSeenResults := None,
      totalAttempts := Some(d.totalAttempts),
      startedDate := Some(base + Days(2)),
      finishedDate := Some(base + Days(6)),
      timeTaken := Some(d.timeTaken))
  }

  /** The record built on iteration i has the shape every assignment record has, and was
      published within the generator's window before the clock. */
  lemma AssignmentRecordShaped(i: nat, d: AssignmentDraw)
    ensures IsAssignment(AssignmentRecord(i, d), i)
    ensures PublishedWithin(AssignmentRecord(i, d), d.clock, 90)
  {
    IdsShown(d);
    IdShown("assign_", d.instance, d.version);
    var titleRest := ": " + d.titleWord;
    NumberAfterShow("Assignment ", i + 1, titleRest);
  }

  method GenerateMockAssignmentData(numRecords: int, draws: seq<AssignmentDraw>) returns (mockData: seq<ActivityRecord>)
    requires numRecords <= |draws|
    ensures |mockData| == RangeLength(numRecords)
    ensures forall k :: 0 <= k < |mockData| ==> mockData[k] == AssignmentRecord(k, draws[k])
    ensures forall k :: 0 <= k < |mockData| ==> IsAssignment(mockData[k], k)
  {
    mockData := [];
    for i := 0 to RangeLength(numRecords)
      invariant |mockData| == i
      invariant forall k :: 0 <= k < i ==> mockData[k] == AssignmentRecord(k, draws[k])
    {
      mockData := mockData + [AssignmentRecord(i, draws[i])];
    }
    AssignmentRecordsShaped(mockData, draws);
  }

  lemma AssignmentRecordsShaped(rs: seq<ActivityRecord>, draws: seq<AssignmentDraw>)
    requires |rs| <= |draws|
    requires forall k :: 0 <= k < |rs| ==> rs[k] == AssignmentRecord(k, draws[k])
    ensures forall k :: 0 <= k < |rs| ==> IsAssignment(rs[k], k)
  {
    forall k | 0 <= k < |rs|
      ensures IsAssignment(rs[k], k)
    {
      AssignmentRecordShaped(k, draws[k]);
    }
  }

  // ---------------------------------------------------------------- quizzes

  const QuizWords: seq<string> := ["Chapter Test", "Midterm", "Final", "Practice Quiz"]
  const QuizTimeLimits: seq<Option<int>> := [Some(30), Some(60), Some(90), Some(120)]
  const QuizPolicies: seq<string> := ["highest", "average", "first", "last"]
  const QuizPoints: seq<int> := [20, 50, 100]
  const QuizAllowedAttempts: seq<Option<int>> := [Some(1), Some(2), Some(3), None]

  predicate ValidQuizDraw(d: Draw) {
    && 1 <= d.daysAgo <= 60 && IdsValid(d)
    && 100 <= d.instance <= 999 && 1 <= d.version <= 3
    && d.titleWord in QuizWords && d.status in Statuses
    && d.timeLimit in QuizTimeLimits
    && d.scoringPolicy in QuizPolicies
    && d.pointsPossible in QuizPoints
    && d.allowedAttempts in QuizAllowedAttempts
    && 1 <= d.attempt <= 3 && 1 <= d.totalAttempts <= 3
  }

  /** A draw of generate_mock_quiz_data, within the ranges it draws from. */
  type QuizDraw = d: Draw | ValidQuizDraw(d) witness SampleDraw.(version := 1, titleWord := "Midterm", timeLimit := Some(30), scoringPolicy := "highest", pointsPossible := 20)

  /** What every quiz record satisfies: type "quiz", id "quiz_<100..999>_...", the title
      "Quiz <i+1>: ...", unlocked at publication, due when it locks, a time limit always set. */
  predicate IsQuiz(r: ActivityRecord, i: nat) {
    && WellFormed(r) && IdsInRange(r)
    && r.activityType == Some("quiz")
    && ActivityIdIn(r, "quiz_", 100, 999)
    && NumberedTitle(r, "Quiz ", i)
    && r.status.value in Statuses
    && r.unlockedDate == r.publishedDate
    && r.dueDate.Some? && r.dueDate == r.lockedDate
    && r.timeLimit in QuizTimeLimits
    && r.scoringPolicy.Some? && r.scoringPolicy.value in QuizPolicies
    && r.pointsPossible.Some? && r.pointsPossible.value in QuizPoints
    && r.allowedAttempts in QuizAllowedAttempts
    && AttemptsIn(r, 3, 3)
    && r.hasSeenResults.None?
  }

  /** The dictionary appended on iteration i of generate_mock_quiz_data. */
  function QuizRecord(i: nat, d: QuizDraw): ActivityRecord {
    var base := d.clock - Days(d.daysAgo);
    var titleRest := ": " + d.titleWord;
    ActivityRecord(
      courseId := Some(Show(d.course)),
      studentId := Some(Show(d.student)),
      activityId := Some("quiz_" + Show(d.instance) + "_" + Show(d.version)),
      activityType := Some("quiz"),
      title := Some("Quiz " + Show(i + 1) + titleRest),
      status := Some(d.status),
      publishedDate := Some(base),
      unlockedDate := Some(base),
      lockedDate := Some(base + Days(7)),
      dueDate := Some(base + Days(7)),
      timeLimit := d.timeLimit,
      scoringPolicy := Some(d.scoringPolicy),
      pointsPossible := Some(d.pointsPossible),
      allowedAttempts := d.allowedAttempts,
      resultId := Some(Show(d.resultId)),
      score := Some(d.score),
      keptScore := Some(d.keptScore),
      attempt := Some(d.attempt),
      gradeViewable := Some(base + Days(1)),
      hasSeenResults := None,
      totalAttempts := Some(d.totalAttempts),
      startedDate := Some(base + Hours(2)),
      finishedDate := Some(base + Hours(3)),
      timeTaken := Some(d.timeTaken))
  }

  /** The record built on iteration i has the shape every quiz record has, and was
      published within the generator's window before the clock. */
  lemma QuizRecordShaped(i: nat, d: QuizDraw)
    ensures IsQuiz(QuizRecord(i, d), i)
    ensures PublishedWithin(QuizRecord(i, d), d.clock, 60)
  {
    IdsShown(d);
    IdShown("quiz_", d.instance, d.version);
    var titleRest := ": " + d.titleWord;
    NumberAfterShow("Quiz ", i + 1, titleRest);
  }

  method GenerateMockQuizData(numRecords: int, draws: seq<QuizDraw>) returns (mockData: seq<ActivityRecord>)
    requires numRecords <= |draws|
    ensures |mockData| == RangeLength(numRecords)
    ensures forall k :: 0 <= k < |mockData| ==> mockData[k] == QuizRecord(k, draws[k])
    ensures forall k :: 0 <= k < |mockData| ==> IsQuiz(mockData[k], k)
  {
    mockData := [];
    for i := 0 to RangeLength(numRecords)
      invariant |mockData| == i
      invariant forall k :: 0 <= k < i ==> mockData[k] == QuizRecord(k, draws[k])
    {
      mockData := mockData + [QuizRecord(i, draws[i])];
    }
    QuizRecordsShaped(mockData, draws);
  }

  lemma QuizRecordsShaped(rs: seq<ActivityRecord>, draws: seq<QuizDraw>)
    requires |rs| <= |draws|
    requires forall k :: 0 <= k < |rs| ==> rs[k] == QuizRecord(k, draws[k])
    ensures forall k :: 0 <= k < |rs| ==> IsQuiz(rs[k], k)
  {
    forall k | 0 <= k < |rs|
      ensures IsQuiz(rs[k], k)
    {
      QuizRecordShaped(k, draws[k]);
    }
  }

  // ---------------------------------------------------------------- lessons

  const LessonWords: seq<string> := ["Introduction", "Advanced Topics", "Case Study", "Review"]
  const LessonTimeLimits: seq<Option<int>> := [None, Some(45), Some(60), Some(90)]
  const LessonPolicies: seq<string> := ["retake_allowed", "single_attempt"]
  const LessonPoints: seq<int> := [10, 20, 30]
  const LessonAllowedAttempts: seq<Option<int>> := [Some(1), None]

  predicate ValidLessonDraw(d: Draw) {
    && 1 <= d.daysAgo <= 45 && IdsValid(d)
    && 100 <= d.instance <= 999 && 0 <= d.version <= 2
    && d.titleWord in LessonWords && d.status in Statuses
    && d.timeLimit in LessonTimeLimits
    && d.scoringPolicy in LessonPolicies
    && d.pointsPossible in LessonPoints
    && d.allowedAttempts in LessonAllowedAttempts
    && 1 <= d.attempt <= 2 && 1 <= d.totalAttempts <= 2
  }

  /** A draw of generate_mock_lesson_data, within the ranges it draws from. */
  type LessonDraw = d: Draw | ValidLessonDraw(d) witness SampleDraw.(titleWord := "Review", timeLimit := None, scoringPolicy := "single_attempt")

  /** What every lesson record satisfies: type "lesson", id "lesson_<100..999>_...", the
      title "Lesson <i+1>: ...", unlocked at publication, due when it locks, and the attempt
      starting at publication. */
  predicate IsLesson(r: ActivityRecord, i: nat) {
    && WellFormed(r) && IdsInRange(r)
    && r.activityType == Some("lesson")
    && ActivityIdIn(r, "lesson_", 100, 999)
    && NumberedTitle(r, "Lesson ", i)
    && r.status.value in Statuses
    && r.unlockedDate == r.publishedDate && r.startedDate == r.publishedDate
    && r.dueDate.Some? && r.dueDate == r.lockedDate
    && r.timeLimit in LessonTimeLimits
    && r.scoringPolicy.Some? && r.scoringPolicy.value in LessonPolicies
    && r.pointsPossible.Some? && r.pointsPossible.value in LessonPoints
    && r.allowedAttempts in LessonAllowedAttempts
    && AttemptsIn(r, 2, 2)
    && r.hasSeenResults.None?
  }

  /** The dictionary appended on iteration i of generate_mock_lesson_data. */
  function LessonRecord(i: nat, d: LessonDraw): ActivityRecord {
    var base := d.clock - Days(d.daysAgo);
    var titleRest := ": " + d.titleWord;
    ActivityRecord(
      courseId := Some(Show(d.course)),
      studentId := Some(Show(d.student)),
      activityId := Some("lesson_" + Show(d.instance) + "_" + Show(d.version)),
      activityType := Some("lesson"),
      title := Some("Lesson " + Show(i + 1) + titleRest),
      status := Some(d.status),
      publishedDate := Some(base),
      unlockedDate := Some(base),
      lockedDate := Some(base + Days(30)),
      dueDate := Some(base + Days(30)),
      timeLimit := d.timeLimit,
      scoringPolicy := Some(d.scoringPolicy),
      pointsPossible := Some(d.pointsPossible),
      allowedAttempts := d.allowedAttempts,
      resultId := Some(Show(d.resultId)),
      score := Some(d.score),
      keptScore := Some(d.keptScore),
      attempt := Some(d.attempt),
      gradeViewable := Some(base + Hours(1)),
      hasSeenResults := None,
      totalAttempts := Some(d.totalAttempts),
      startedDate := Some(base),
      finishedDate := Some(base + Hours(1)),
      timeTaken := Some(d.timeTaken))
  }

  /** The record built on iteration i has the shape every lesson record has, and was
      published within the generator's window before the clock. */
  lemma LessonRecordShaped(i: nat, d: LessonDraw)
    ensures IsLesson(LessonRecord(i, d), i)
    ensures PublishedWithin(LessonRecord(i, d), d.clock, 45)
  {
    IdsShown(d);
    IdShown("lesson_", d.instance, d.version);
    var titleRest := ": " + d.titleWord;
    NumberAfterShow("Lesson ", i + 1, titleRest);
  }

  method GenerateMockLessonData(numRecords: int, draws: seq<LessonDraw>) returns (mockData: seq<ActivityRecord>)
    requires numRecords <= |draws|
    ensures |mockData| == RangeLength(numRecords)
    ensures forall k :: 0 <= k < |mockData| ==> mockData[k] == LessonRecord(k, draws[k])
    ensures forall k :: 0 <= k < |mockData| ==> IsLesson(mockData[k], k)
  {
    mockData := [];
    for i := 0 to RangeLength(numRecords)
      invariant |mockData| == i
      invariant forall k :: 0 <= k < i ==> mockData[k] == LessonRecord(k, draws[k])
    {
      mockData := mockData + [LessonRecord(i, draws[i])];
    }
    LessonRecordsShaped(mockData, draws);
  }

  lemma LessonRecordsShaped(rs: seq<ActivityRecord>, draws: seq<LessonDraw>)
    requires |rs| <= |draws|
    requires forall k :: 0 <= k < |rs| ==> rs[k] == LessonRecord(k, draws[k])
    ensures forall k :: 0 <= k < |rs| ==> IsLesson(rs[k], k)
  {
    forall k | 0 <= k < |rs|
      ensures IsLesson(rs[k], k)
    {
      LessonRecordShaped(k, draws[k]);
    }
  }

  // ---------------------------------------------------------------- H5P

  const H5PWords: seq<string> := ["Video Quiz", "Interactive Presentation", "Memory Game", "Timeline"]
  const H5PPoints: seq<int> := [5, 10, 15]

  predicate ValidH5PDraw(d: Draw) {
    && 1 <= d.daysAgo <= 30 && IdsValid(d)
    && 100 <= d.instance <= 999 && 1 <= d.version <= 5
    && d.titleWord in H5PWords
    && d.pointsPossible in H5PPoints
    && 1 <= d.attempt <= 5 && 1 <= d.totalAttempts <= 5
    && 5 <= d.finishOffset <= 30
  }

  /** A draw of generate_mock_h5p_data, within the ranges it draws from. */
  type H5PDraw = d: Draw | ValidH5PDraw(d) witness SampleDraw.(version := 1, titleWord := "Timeline", pointsPossible := 5)

  /** What every H5P record satisfies: type "h5p", id "h5p_<100..999>_...", the title
      "Interactive Content <i+1>: ...", always published, no unlock, lock or due date and no
      time limit, and the attempt started at publication and finished 5 to 30 minutes later. */
  predicate IsH5P(r: ActivityRecord, i: nat) {
    && WellFormed(r) && IdsInRange(r)
    && r.activityType == Some("h5p")
    && ActivityIdIn(r, "h5p_", 100, 999)
    && NumberedTitle(r, "Interactive Content ", i)
    && r.status == Some("published")
    && r.unlockedDate.None? && r.lockedDate.None? && r.dueDate.None?
    && r.timeLimit.None? && r.allowedAttempts.None?
    && r.scoringPolicy == Some("keep_highest")
    && r.pointsPossible.Some? && r.pointsPossible.value in H5PPoints
    && r.startedDate == r.publishedDate
    && Minutes(5) <= r.finishedDate.value - r.startedDate.value <= Minutes(30)
    && AttemptsIn(r, 5, 5)
    && r.hasSeenResults.None?
  }

  /** The dictionary appended on iteration i of generate_mock_h5p_data. */
  function H5PRecord(i: nat, d: H5PDraw): ActivityRecord {
    var base := d.clock - Days(d.daysAgo);
    var titleRest := ": " + d.titleWord;
    ActivityRecord(
      courseId := Some(Show(d.course)),
      studentId := Some(Show(d.student)),
      activityId := Some("h5p_" + Show(d.instance) + "_" + Show(d.version)),
      activityType := Some("h5p"),
      title := Some("Interactive Content " + Show(i + 1) + titleRest),
      status := Some("published"),
      publishedDate := Some(base),
      unlockedDate := None,
      lockedDate := None,
      dueDate := None,
      timeLimit := None,
      scoringPolicy := Some("keep_highest"),
      pointsPossible := Some(d.pointsPossible),
      allowedAttempts := None,
      resultId := Some(Show(d.resultId)),
      score := Some(d.score),
      keptScore := Some(d.keptScore),
      attempt := Some(d.attempt),
      gradeViewable := Some(base),
      hasSeenResults := None,
      totalAttempts := Some(d.totalAttempts),
      startedDate := Some(base),
      finishedDate := Some(base + Minutes(d.finishOffset)),
      timeTaken := Some(d.timeTaken))
  }

  /** The record built on iteration i has the shape every H5P record has, and was
      published within the generator's window before the clock. */
  lemma H5PRecordShaped(i: nat, d: H5PDraw)
    ensures IsH5P(H5PRecord(i, d), i)
    ensures PublishedWithin(H5PRecord(i, d), d.clock, 30)
  {
    IdsShown(d);
    IdShown("h5p_", d.instance, d.version);
    var titleRest := ": " + d.titleWord;
    NumberAfterShow("Interactive Content ", i + 1, titleRest);
  }

  method GenerateMockH5PData(numRecords: int, draws: seq<H5PDraw>) returns (mockData: seq<ActivityRecord>)
    requires numRecords <= |draws|
    ensures |mockData| == RangeLength(numRecords)
    ensures forall k :: 0 <= k < |mockData| ==> mockData[k] == H5PRecord(k, draws[k])
    ensures forall k :: 0 <= k < |mockData| ==> IsH5P(mockData[k], k)
  {
    mockData := [];
    for i := 0 to RangeLength(numRecords)
      invariant |mockData| == i
      invariant forall k :: 0 <= k < i ==> mockData[k] == H5PRecord(k, draws[k])
    {
      mockData := mockData + [H5PRecord(i, draws[i])];
    }
    H5PRecordsShaped(mockData, draws);
  }

  lemma H5PRecordsShaped(rs: seq<ActivityRecord>, draws: seq<H5PDraw>)
    requires |rs| <= |draws|
    requires forall k :: 0 <= k < |rs| ==> rs[k] == H5PRecord(k, draws[k])
    ensures forall k :: 0 <= k < |rs| ==> IsH5P(rs[k], k)
  {
    forall k | 0 <= k < |rs|
      ensures IsH5P(rs[k], k)
    {
      H5PRecordShaped(k, draws[k]);
    }
  }

  // ---------------------------------------------------------------- other activities

  predicate IsLower(c: char) { 'a' <= c <= 'z' }
  predicate IsUpper(c: char) { 'A' <= c <= 'Z' }

  function Upper(c: char): char {
    if IsLower(c) then (c as int - 'a' as int + 'A' as int) as char else c
  }

  function Lower(c: char): char {
    if IsUpper(c) then (c as int - 'A' as int + 'a' as int) as char else c
  }

  /** `str.title()` on ASCII text: a letter that follows a letter is lower-cased, any other
      letter is upper-cased. `afterLetter` says whether the character before s was a letter. */
  function TitleCase(s: string, afterLetter: bool): (t: string)
    ensures |t| == |s|
  {
    if s == [] then []
    else
      [if afterLetter then Lower(s[0]) else Upper(s[0])]
      + TitleCase(s[1..], IsLower(s[0]) || IsUpper(s[0]))
  }

  /** A word of lower-case ASCII letters. */
  predicate LowerWord(s: string) {
    forall k :: 0 <= k < |s| ==> IsLower(s[k])
  }

  /** After a letter, `str.title()` leaves a lower-case word as it is. */
  lemma {:induction false} TitleCaseAfterLetter(s: string)
    requires LowerWord(s)
    ensures TitleCase(s, true) == s
    decreases |s|
  {
    if s != [] {
      TitleCaseAfterLetter(s[1..]);
      assert s == [s[0]] + s[1..];
    }
  }

  /** `str.title()` of a lower-case word capitalises its first letter and keeps the rest. */
  lemma TitleCaseWord(s: string)
    requires s != [] && LowerWord(s)
    ensures TitleCase(s, false) == [Upper(s[0])] + s[1..]
  {
    TitleCaseAfterLetter(s[1..]);
  }

  /** `activity_type.title()` of each of the five "other" activity types ("forum", ...)
      is the type with its first letter upper-cased ("Forum", ...). */
  lemma OtherTypeTitle(t: string)
    requires t in OtherTypes
    ensures TitleCase(t, false) == [Upper(t[0])] + t[1..]
    ensures IsUpper(TitleCase(t, false)[0])
  {
    assert LowerWord(t);
    TitleCaseWord(t);
  }

  predicate ValidOtherDraw(d: Draw) {
    && d.otherType in OtherTypes
    && 1 <= d.daysAgo <= 60 && IdsValid(d)
    && 100 <= d.instance <= 999 && 10000 <= d.version <= 99999
    && d.status in Statuses
    && d.pointsPossible in OtherPoints
    && 1 <= d.finishOffset <= 24
  }

  /** A draw of generate_mock_other_data, within the ranges it draws from. */
  type OtherDraw = d: Draw | ValidOtherDraw(d) witness SampleDraw.(version := 10000, pointsPossible := 5, finishOffset := 1)

  /** What every record of another gradeable activity satisfies: its type is one of forum,
      workshop, glossary, wiki, choice; its id is "<type>_<100..999>_..."; its title is
      "<Type> Activity <i+1>"; there is no unlock, lock or due date, no time limit, scoring
      policy, attempt limit or time taken; it is a single attempt; it started at publication
      and finished 1 to 24 hours later. */
  predicate IsOther(r: ActivityRecord, i: nat) {
    && WellFormed(r) && IdsInRange(r)
    && r.activityType.value in OtherTypes
    && ActivityIdIn(r, r.activityType.value + "_", 100, 999)
    && NumberedTitle(r, TitleCase(r.activityType.value, false) + " Activity ", i)
    && r.status.value in Statuses
    && r.unlockedDate.None? && r.lockedDate.None? && r.dueDate.None?
    && r.timeLimit.None? && r.scoringPolicy.None? && r.allowedAttempts.None?
    && r.pointsPossible.Some? && r.pointsPossible.value in OtherPoints
    && r.attempt == Some(1) && r.totalAttempts == Some(1)
    && r.startedDate == r.publishedDate
    && Hours(1) <= r.finishedDate.value - r.startedDate.value <= Hours(24)
    && r.timeTaken.None? && r.hasSeenResults.None?
  }

  /** The dictionary appended on iteration i of generate_mock_other_data. */
  function OtherRecord(i: nat, d: OtherDraw): ActivityRecord {
    var base := d.clock - Days(d.daysAgo);
    var titlePrefix := TitleCase(d.otherType, false) + " Activity ";
    ActivityRecord(
      courseId := Some(Show(d.course)),
      studentId := Some(Show(d.student)),
      activityId := Some(d.otherType + "_" + Show(d.instance) + "_" + Show(d.version)),
      activityType := Some(d.otherType),
      title := Some(titlePrefix + Show(i + 1)),
      status := Some(d.status),
      publishedDate := Some(base),
      unlockedDate := None,
      lockedDate := None,
      dueDate := None,
      timeLimit := None,
      scoringPolicy := None,
      pointsPossible := Some(d.pointsPossible),
      allowedAttempts := None,
      resultId := Some(Show(d.resultId)),
      score := Some(d.score),
      keptScore := Some(d.keptScore),
      attempt := Some(1),
      gradeViewable := Some(base),
      hasSeenResults := None,
      totalAttempts := Some(1),
      startedDate := Some(base),
      finishedDate := Some(base + Hours(d.finishOffset)),
      timeTaken := None)
  }

  /** The record built on iteration i has the shape every "other" activity record has, and was
      published within the generator's window before the clock. */
  lemma OtherRecordShaped(i: nat, d: OtherDraw)
    ensures IsOther(OtherRecord(i, d), i)
    ensures PublishedWithin(OtherRecord(i, d), d.clock, 60)
  {
    var titlePrefix := TitleCase(d.otherType, false) + " Activity ";
    IdsShown(d);
    IdShown(d.otherType + "_", d.instance, d.version);
    NumberAfterShow(titlePrefix, i + 1, []);
    assert titlePrefix + Show(i + 1) + [] == titlePrefix + Show(i + 1);
  }

  method GenerateMockOtherData(numRecords: int, draws: seq<OtherDraw>) returns (mockData: seq<ActivityRecord>)
    requires numRecords <= |draws|
    ensures |mockData| == RangeLength(numRecords)
    ensures forall k :: 0 <= k < |mockData| ==> mockData[k] == OtherRecord(k, draws[k])
    ensures forall k :: 0 <= k < |mockData| ==> IsOther(mockData[k], k)
  {
    mockData := [];
    for i := 0 to RangeLength(numRecords)
      invariant |mockData| == i
      invariant forall k :: 0 <= k < i ==> mockData[k] == OtherRecord(k, draws[k])
    {
      mockData := mockData + [OtherRecord(i, draws[i])];
    }
    OtherRecordsShaped(mockData, draws);
  }

  lemma OtherRecordsShaped(rs: seq<ActivityRecord>, draws: seq<OtherDraw>)
    requires |rs| <= |draws|
    requires forall k :: 0 <= k < |rs| ==> rs[k] == OtherRecord(k, draws[k])
    ensures forall k :: 0 <= k < |rs| ==> IsOther(rs[k], k)
  {
    forall k | 0 <= k < |rs|
      ensures IsOther(rs[k], k)
    {
      OtherRecordShaped(k, draws[k]);
    }
  }
}
