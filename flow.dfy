/** The five extract tasks and the flow that runs them and combines their results. The
    tasks are submitted concurrently and all draw from one random generator, so their
    draws may interleave. Here each task's draws are an input of its own, which makes the
    order in which the tasks run irrelevant: running them in sequence gives the same five
    lists. */
module Flow {
  import opened Wrappers
  import opened Records
  import opened Series
  import opened MockData
  import opened Aggregation

  /** The record counts the extract tasks ask their generators for. */
  const AssignmentCount: nat := 100
  const QuizCount: nat := 150
  const LessonCount: nat := 80
  const H5PCount: nat := 60
  const OtherCount: nat := 40

  method ExtractAssignmentData(draws: seq<AssignmentDraw>) returns (data: seq<ActivityRecord>)
    requires AssignmentCount <= |draws|
    ensures |data| == AssignmentCount
    ensures forall k :: 0 <= k < |data| ==> data[k] == AssignmentRecord(k, draws[k])
    ensures forall k :: 0 <= k < |data| ==> IsAssignment(data[k], k)
  {
    data := GenerateMockAssignmentData(AssignmentCount, draws);
  }

  method ExtractQuizData(draws: seq<QuizDraw>) returns (data: seq<ActivityRecord>)
    requires QuizCount <= |draws|
    ensures |data| == QuizCount
    ensures forall k :: 0 <= k < |data| ==> data[k] == QuizRecord(k, draws[k])
    ensures forall k :: 0 <= k < |data| ==> IsQuiz(data[k], k)
  {
    data := GenerateMockQuizData(QuizCount, draws);
  }

  method ExtractLessonData(draws: seq<LessonDraw>) returns (data: seq<ActivityRecord>)
    requires LessonCount <= |draws|
    ensures |data| == LessonCount
    ensures forall k :: 0 <= k < |data| ==> data[k] == LessonRecord(k, draws[k])
    ensures forall k :: 0 <= k < |data| ==> IsLesson(data[k], k)
  {
    data := GenerateMockLessonData(LessonCount, draws);
  }

  method ExtractH5PData(draws: seq<H5PDraw>) returns (data: seq<ActivityRecord>)
    requires H5PCount <= |draws|
    ensures |data| == H5PCount
    ensures forall k :: 0 <= k < |data| ==> data[k] == H5PRecord(k, draws[k])
    ensures forall k :: 0 <= k < |data| ==> IsH5P(data[k], k)
  {
    data := GenerateMockH5PData(H5PCount, draws);
  }

  method ExtractOtherActivitiesData(draws: seq<OtherDraw>) returns (data: seq<ActivityRecord>)
    requires OtherCount <= |draws|
    ensures |data| == OtherCount
    ensures forall k :: 0 <= k < |data| ==> data[k] == OtherRecord(k, draws[k])
    ensures forall k :: 0 <= k < |data| ==> IsOther(data[k], k)
  {
    data := GenerateMockOtherData(OtherCount, draws);
  }

  /** Five lists as the five generators produce them. */
  predicate Generated(
    a: seq<ActivityRecord>, q: seq<ActivityRecord>, l: seq<ActivityRecord>,
    h: seq<ActivityRecord>, o: seq<ActivityRecord>)
  {
    && (forall k :: 0 <= k < |a| ==> IsAssignment(a[k], k))
    && (forall k :: 0 <= k < |q| ==> IsQuiz(q[k], k))
    && (forall k :: 0 <= k < |l| ==> IsLesson(l[k], k))
    && (forall k :: 0 <= k < |h| ==> IsH5P(h[k], k))
    && (forall k :: 0 <= k < |o| ==> IsOther(o[k], k))
  }

  /** `counts.get(t, 0)` for a dictionary of counts. */
  function CountOf(m: map<string, nat>, t: string): nat {
    if t in m then m[t] else 0
  }

  /** What the summary of generated records says, given the five list lengths. */
  ghost predicate SummaryOfGenerated(s: Summary, na: nat, nq: nat, nl: nat, nh: nat, no: nat) {
    var total := na + nq + nl + nh + no;
    && s.totalRecords == total
    && CountOf(s.activityTypeCounts, "assignment") == na
    && CountOf(s.activityTypeCounts, "quiz") == nq
    && CountOf(s.activityTypeCounts, "lesson") == nl
    && CountOf(s.activityTypeCounts, "h5p") == nh
    && CountOf(s.activityTypeCounts, "forum") + CountOf(s.activityTypeCounts, "workshop")
       + CountOf(s.activityTypeCounts, "glossary") + CountOf(s.activityTypeCounts, "wiki")
       + CountOf(s.activityTypeCounts, "choice") == no
    && SumValues(s.activityTypeCounts) == total
    && SumValues(s.statusDistribution) == total
    && s.statusDistribution.Keys <= {"published", "unpublished"}
    && 1 <= s.courseCount <= total
    && 1 <= s.studentCount <= total
    && s.dataQualityChecks.nullScores == 0
    && s.dataQualityChecks.nullTitles == 0
  }

  /** Records that are all well formed with a status from the generators' choices. */
  predicate Clean(rs: seq<ActivityRecord>) {
    forall k :: 0 <= k < |rs| ==> WellFormed(rs[k]) && rs[k].status.value in Statuses
  }

  /** The activity types of five lists as the generators produce them. */
  predicate Typed(a: seq<ActivityRecord>, q: seq<ActivityRecord>, l: seq<ActivityRecord>,
                  h: seq<ActivityRecord>, o: seq<ActivityRecord>)
  {
    && (forall k :: 0 <= k < |a| ==> a[k].activityType == Some("assignment"))
    && (forall k :: 0 <= k < |q| ==> q[k].activityType == Some("quiz"))
    && (forall k :: 0 <= k < |l| ==> l[k].activityType == Some("lesson"))
    && (forall k :: 0 <= k < |h| ==> h[k].activityType == Some("h5p"))
    && (forall k :: 0 <= k < |o| ==> o[k].activityType.Some? && o[k].activityType.value in OtherTypes)
  }

  /** Every generated record is well formed and has a published or unpublished status. */
  lemma GeneratedRecords(a: seq<ActivityRecord>, q: seq<ActivityRecord>, l: seq<ActivityRecord>,
                         h: seq<ActivityRecord>, o: seq<ActivityRecord>)
    requires Generated(a, q, l, h, o)
    ensures Clean(a + q + l + h + o)
  {
  }


  lemma GeneratedTyped(a: seq<ActivityRecord>, q: seq<ActivityRecord>, l: seq<ActivityRecord>,
                       h: seq<ActivityRecord>, o: seq<ActivityRecord>)
    requires Generated(a, q, l, h, o)
    ensures Typed(a, q, l, h, o)
  {
  }

  /** The number of records in a list of one activity type carrying type t: all of them
      when t is that type, none otherwise. */
  lemma TypeOccurrences(rs: seq<ActivityRecord>, u: string, t: string)
    requires forall k :: 0 <= k < |rs| ==> rs[k].activityType == Some(u)
    ensures multiset(ColumnOf(rs, ActivityType))[Some(t)] == if t == u then |rs| else 0
  {
    var xs := ColumnOf(rs, ActivityType);
    if t == u {
      ConstantOccurrences(xs, Some(t));
    } else {
      assert Some(t) !in xs;
    }
  }

  /** The number of records carrying type t in the "other" list. */
  function OtherOccurrences(o: seq<ActivityRecord>, t: string): nat {
    multiset(ColumnOf(o, ActivityType))[Some(t)]
  }

  /** One of the five types the "other" generator chooses from. */
  predicate IsOtherType(x: Option<string>) {
    x == Some("forum") || x == Some("workshop") || x == Some("glossary") || x == Some("wiki")
    || x == Some("choice")
  }

  /** A column holding only the five "other" types holds each some number of times, and
      these numbers add up to its length. */
  lemma {:induction false} OtherTypesInColumn(xs: seq<Option<string>>)
    requires forall k :: 0 <= k < |xs| ==> IsOtherType(xs[k])
    ensures multiset(xs)[Some("forum")] + multiset(xs)[Some("workshop")] + multiset(xs)[Some("glossary")]
            + multiset(xs)[Some("wiki")] + multiset(xs)[Some("choice")] == |xs|
    decreases |xs|
  {
    if xs != [] {
      var init, last := xs[..|xs| - 1], xs[|xs| - 1];
      assert xs == init + [last];
      assert multiset(xs) == multiset(init) + multiset{last};
      OtherTypesInColumn(init);
    }
  }

  /** Each record of the "other" list carries exactly one of the five types, so the
      five type counts add up to its length. */
  lemma OtherTypesPartition(o: seq<ActivityRecord>)
    requires forall k :: 0 <= k < |o| ==> o[k].activityType.Some? && o[k].activityType.value in OtherTypes
    ensures OtherOccurrences(o, "forum") + OtherOccurrences(o, "workshop") + OtherOccurrences(o, "glossary")
            + OtherOccurrences(o, "wiki") + OtherOccurrences(o, "choice") == |o|
  {
    var xs := ColumnOf(o, ActivityType);
    forall k | 0 <= k < |xs| ensures IsOtherType(xs[k]) {
      assert xs[k] == o[k].activityType;
    }
    OtherTypesInColumn(xs);
  }

  /** The count value_counts gives a value is the number of records carrying it. */
  lemma CountIsOccurrences(rs: seq<ActivityRecord>, c: Column, t: string)
    ensures CountOf(ValueCountsOf(rs, c), t) == multiset(ColumnOf(rs, c))[Some(t)]
  {
    ValueCountsOfMeaning(rs, c);
    var xs := ColumnOf(rs, c);
    if Some(t) in xs {
      var k :| 0 <= k < |xs| && xs[k] == Some(t);
      assert Field(rs[k], c) == Some(t);
    }
  }

  /** The values of a column of five concatenated lists, counted per list. */
  lemma FiveColumns(a: seq<ActivityRecord>, q: seq<ActivityRecord>, l: seq<ActivityRecord>,
                    h: seq<ActivityRecord>, o: seq<ActivityRecord>, c: Column)
    ensures multiset(ColumnOf(a + q + l + h + o, c))
      == multiset(ColumnOf(a, c)) + multiset(ColumnOf(q, c)) + multiset(ColumnOf(l, c))
         + multiset(ColumnOf(h, c)) + multiset(ColumnOf(o, c))
  {
    ColumnOfAppend(a, q, c);
    ColumnOfAppend(a + q, l, c);
    ColumnOfAppend(a + q + l, h, c);
    ColumnOfAppend(a + q + l + h, o, c);
  }

  /** How many combined records carry type t, per list. */
  lemma TypeCount(a: seq<ActivityRecord>, q: seq<ActivityRecord>, l: seq<ActivityRecord>,
                  h: seq<ActivityRecord>, o: seq<ActivityRecord>, t: string)
    requires Typed(a, q, l, h, o)
    ensures CountOf(ValueCountsOf(a + q + l + h + o, ActivityType), t)
      == (if t == "assignment" then |a| else 0) + (if t == "quiz" then |q| else 0)
         + (if t == "lesson" then |l| else 0) + (if t == "h5p" then |h| else 0)
         + (if t in OtherTypes then OtherOccurrences(o, t) else 0)
  {
    CountIsOccurrences(a + q + l + h + o, ActivityType, t);
    FiveColumns(a, q, l, h, o, ActivityType);
    TypeOccurrences(a, "assignment", t);
    TypeOccurrences(q, "quiz", t);
    TypeOccurrences(l, "lesson", t);
    TypeOccurrences(h, "h5p", t);
    if t !in OtherTypes {
      assert Some(t) !in ColumnOf(o, ActivityType);
    }
  }

  /** The type counts of the combined list: each fixed type counts its own list, the five
      other types together count the "other" list. */
  lemma TypeCountsOfGenerated(a: seq<ActivityRecord>, q: seq<ActivityRecord>, l: seq<ActivityRecord>,
                              h: seq<ActivityRecord>, o: seq<ActivityRecord>)
    requires Typed(a, q, l, h, o)
    ensures var m := ValueCountsOf(a + q + l + h + o, ActivityType);
      && CountOf(m, "assignment") == |a| && CountOf(m, "quiz") == |q| && CountOf(m, "lesson") == |l|
      && CountOf(m, "h5p") == |h|
      && CountOf(m, "forum") + CountOf(m, "workshop") + CountOf(m, "glossary") + CountOf(m, "wiki")
         + CountOf(m, "choice") == |o|
  {
    TypeCount(a, q, l, h, o, "assignment");
    TypeCount(a, q, l, h, o, "quiz");
    TypeCount(a, q, l, h, o, "lesson");
    TypeCount(a, q, l, h, o, "h5p");
    TypeCount(a, q, l, h, o, "forum");
    TypeCount(a, q, l, h, o, "workshop");
    TypeCount(a, q, l, h, o, "glossary");
    TypeCount(a, q, l, h, o, "wiki");
    TypeCount(a, q, l, h, o, "choice");
    OtherTypesPartition(o);
  }

  /** Both distributions of clean records count every record, and the statuses are the
      generators' two. */
  lemma CleanDistributions(all: seq<ActivityRecord>)
    requires Clean(all)
    ensures SumValues(ValueCountsOf(all, ActivityType)) == |all|
    ensures SumValues(ValueCountsOf(all, Status)) == |all|
    ensures ValueCountsOf(all, Status).Keys <= {"published", "unpublished"}
  {
    assert forall k :: 0 <= k < |all| ==> Field(all[k], ActivityType).Some? && Field(all[k], Status).Some?;
    ValueCountsOfCoverAll(all, ActivityType);
    ValueCountsOfCoverAll(all, Status);
    ValueCountsOfMeaning(all, Status);
  }

  /** Clean records give distinct counts between 1 and the record count, and no null
      score or title. */
  lemma CleanCounts(all: seq<ActivityRecord>)
    requires Clean(all) && all != []
    ensures 1 <= NUniqueOf(all, CourseId) <= |all| && 1 <= NUniqueOf(all, StudentId) <= |all|
    ensures NullScores(all) == 0 && NullsOf(all, Title) == 0
  {
    assert forall k :: 0 <= k < |all| ==> Field(all[k], Title).Some? && all[k].score.Some?;
    NUniqueOfBounds(all, CourseId);
    NUniqueOfBounds(all, StudentId);
    NullsOfCount(all, Title);
    assert Field(all[0], CourseId).Some? && Field(all[0], StudentId).Some?;
  }

  /** Summary facts that hold for any non-empty list of clean records. */
  lemma CleanSummary(all: seq<ActivityRecord>)
    requires Clean(all) && all != []
    ensures var s := Summarize(all);
      && SumValues(s.activityTypeCounts) == |all|
      && SumValues(s.statusDistribution) == |all|
      && s.statusDistribution.Keys <= {"published", "unpublished"}
      && 1 <= s.courseCount <= |all| && 1 <= s.studentCount <= |all|
      && s.dataQualityChecks.nullScores == 0 && s.dataQualityChecks.nullTitles == 0
  {
    CleanDistributions(all);
    CleanCounts(all);
  }

  /** The summary of a non-empty combination of generated lists. */
  lemma GeneratedSummary(a: seq<ActivityRecord>, q: seq<ActivityRecord>, l: seq<ActivityRecord>,
                         h: seq<ActivityRecord>, o: seq<ActivityRecord>)
    requires Generated(a, q, l, h, o)
    requires |a| + |q| + |l| + |h| + |o| > 0
    ensures CombineAndProcessData(a, q, l, h, o).Success?
    ensures SummaryOfGenerated(CombineAndProcessData(a, q, l, h, o).value.summary, |a|, |q|, |l|, |h|, |o|)
  {
    var all := a + q + l + h + o;
    GeneratedRecords(a, q, l, h, o);
    GeneratedTyped(a, q, l, h, o);
    TypeCountsOfGenerated(a, q, l, h, o);
    CleanSummary(all);
    assert CombineAndProcessData(a, q, l, h, o).value.summary == Summarize(all);
  }

  /** Where each of five concatenated lists sits in the concatenation. */
  lemma ConcatSegments<T>(a: seq<T>, q: seq<T>, l: seq<T>, h: seq<T>, o: seq<T>)
    ensures var all := a + q + l + h + o;
      && |all| == |a| + |q| + |l| + |h| + |o|
      && (forall k :: 0 <= k < |a| ==> all[k] == a[k])
      && (forall k :: 0 <= k < |q| ==> all[|a| + k] == q[k])
      && (forall k :: 0 <= k < |l| ==> all[|a| + |q| + k] == l[k])
      && (forall k :: 0 <= k < |h| ==> all[|a| + |q| + |l| + k] == h[k])
      && (forall k :: 0 <= k < |o| ==> all[|a| + |q| + |l| + |h| + k] == o[k])
  {
  }

  /** The data consists of na assignment, nq quiz, nl lesson, nh H5P and no "other" records,
      in that order, the k-th record of each segment built from the k-th draw of its task. */
  predicate BuiltFrom(
    data: seq<ActivityRecord>, ad: seq<AssignmentDraw>, qd: seq<QuizDraw>, ld: seq<LessonDraw>,
    hd: seq<H5PDraw>, od: seq<OtherDraw>, na: nat, nq: nat, nl: nat, nh: nat, no: nat)
  {
    && |data| == na + nq + nl + nh + no
    && na <= |ad| && nq <= |qd| && nl <= |ld| && nh <= |hd| && no <= |od|
    && (forall k :: 0 <= k < na ==> data[k] == AssignmentRecord(k, ad[k]))
    && (forall k :: 0 <= k < nq ==> data[na + k] == QuizRecord(k, qd[k]))
    && (forall k :: 0 <= k < nl ==> data[na + nq + k] == LessonRecord(k, ld[k]))
    && (forall k :: 0 <= k < nh ==> data[na + nq + nl + k] == H5PRecord(k, hd[k]))
    && (forall k :: 0 <= k < no ==> data[na + nq + nl + nh + k] == OtherRecord(k, od[k]))
  }

  /** The data consists of the five generators' outputs in order, each record shaped as its
      generator makes the record at that position. */
  predicate ShapedInOrder(data: seq<ActivityRecord>, na: nat, nq: nat, nl: nat, nh: nat, no: nat) {
    && |data| == na + nq + nl + nh + no
    && (forall k :: 0 <= k < na ==> IsAssignment(data[k], k))
    && (forall k :: na <= k < na + nq ==> IsQuiz(data[k], k - na))
    && (forall k :: na + nq <= k < na + nq + nl ==> IsLesson(data[k], k - na - nq))
    && (forall k :: na + nq + nl <= k < na + nq + nl + nh ==> IsH5P(data[k], k - na - nq - nl))
    && (forall k :: na + nq + nl + nh <= k < |data| ==> IsOther(data[k], k - na - nq - nl - nh))
  }

  /** Concatenating the outputs of the five generators keeps each record at its segment. */
  lemma CombinedBuiltFrom(
    a: seq<ActivityRecord>, q: seq<ActivityRecord>, l: seq<ActivityRecord>,
    h: seq<ActivityRecord>, o: seq<ActivityRecord>,
    ad: seq<AssignmentDraw>, qd: seq<QuizDraw>, ld: seq<LessonDraw>, hd: seq<H5PDraw>, od: seq<OtherDraw>)
    requires |a| <= |ad| && (forall k :: 0 <= k < |a| ==> a[k] == AssignmentRecord(k, ad[k]))
    requires |q| <= |qd| && (forall k :: 0 <= k < |q| ==> q[k] == QuizRecord(k, qd[k]))
    requires |l| <= |ld| && (forall k :: 0 <= k < |l| ==> l[k] == LessonRecord(k, ld[k]))
    requires |h| <= |hd| && (forall k :: 0 <= k < |h| ==> h[k] == H5PRecord(k, hd[k]))
    requires |o| <= |od| && (forall k :: 0 <= k < |o| ==> o[k] == OtherRecord(k, od[k]))
    ensures BuiltFrom(a + q + l + h + o, ad, qd, ld, hd, od, |a|, |q|, |l|, |h|, |o|)
  {
    ConcatSegments(a, q, l, h, o);
  }

  /** Concatenating generated lists keeps each record's shape at its segment. */
  lemma CombinedShapedInOrder(
    a: seq<ActivityRecord>, q: seq<ActivityRecord>, l: seq<ActivityRecord>,
    h: seq<ActivityRecord>, o: seq<ActivityRecord>)
    requires Generated(a, q, l, h, o)
    ensures ShapedInOrder(a + q + l + h + o, |a|, |q|, |l|, |h|, |o|)
  {
    ConcatSegments(a, q, l, h, o);
  }


  /** moodle_learning_activities_flow: run the five extractions and combine their results.
      With the fixed counts the combined list has 100 + 150 + 80 + 60 + 40 = 430 records. */
  method MoodleLearningActivitiesFlow(
    assignmentDraws: seq<AssignmentDraw>, quizDraws: seq<QuizDraw>, lessonDraws: seq<LessonDraw>,
    h5pDraws: seq<H5PDraw>, otherDraws: seq<OtherDraw>)
    returns (result: Result<Processed, Error>)
    requires AssignmentCount <= |assignmentDraws| && QuizCount <= |quizDraws|
    requires LessonCount <= |lessonDraws| && H5PCount <= |h5pDraws| && OtherCount <= |otherDraws|
    ensures result.Success?
    ensures |result.value.data| == result.value.summary.totalRecords == 430
    ensures BuiltFrom(result.value.data, assignmentDraws, quizDraws, lessonDraws, h5pDraws, otherDraws,
                      100, 150, 80, 60, 40)
    ensures ShapedInOrder(result.value.data, 100, 150, 80, 60, 40)
    ensures SummaryOfGenerated(result.value.summary, 100, 150, 80, 60, 40)
  {
    var assignments := ExtractAssignmentData(assignmentDraws);
    var quizzes := ExtractQuizData(quizDraws);
    var lessons := ExtractLessonData(lessonDraws);
    var h5p := ExtractH5PData(h5pDraws);
    var others := ExtractOtherActivitiesData(otherDraws);
    result := CombineAndProcessData(assignments, quizzes, lessons, h5p, others);
    GeneratedSummary(assignments, quizzes, lessons, h5p, others);
    CombinedBuiltFrom(assignments, quizzes, lessons, h5p, others,
                      assignmentDraws, quizDraws, lessonDraws, h5pDraws, otherDraws);
    CombinedShapedInOrder(assignments, quizzes, lessons, h5p, others);
  }
}
