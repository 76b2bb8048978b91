/** combine_and_process_data: concatenate the five record lists, build a DataFrame of them
    and compute the summary's counts, distributions and data-quality checks. */
module Aggregation {
  import opened Wrappers
  import opened Records
  import opened Series

  /** The text-valued columns the summary reads. */
  datatype Column = CourseId | StudentId | ActivityId | ActivityType | Title | Status

  function ColumnName(c: Column): string {
    match c
    case CourseId => "lms_la_lms_course_id"
    case StudentId => "lms_la_lms_student_id"
    case ActivityId => "lms_la_activity_id"
    case ActivityType => "lms_la_activity_type"
    case Title => "lms_la_title"
    case Status => "lms_la_status"
  }

  function Field(r: ActivityRecord, c: Column): Option<string> {
    match c
    case CourseId => r.courseId
    case StudentId => r.studentId
    case ActivityId => r.activityId
    case ActivityType => r.activityType
    case Title => r.title
    case Status => r.status
  }

  /** `df[name]` for a text column: one entry per record, in record order. */
  function ColumnOf(rs: seq<ActivityRecord>, c: Column): (xs: seq<Option<string>>)
    ensures |xs| == |rs|
    ensures forall k :: 0 <= k < |rs| ==> xs[k] == Field(rs[k], c)
  {
    seq(|rs|, k requires 0 <= k < |rs| => Field(rs[k], c))
  }

  /** `df['lms_la_score']`. */
  function ScoreColumn(rs: seq<ActivityRecord>): (xs: seq<Option<real>>)
    ensures |xs| == |rs|
    ensures forall k :: 0 <= k < |rs| ==> xs[k] == rs[k].score
  {
    seq(|rs|, k requires 0 <= k < |rs| => rs[k].score)
  }

  datatype QualityChecks = QualityChecks(nullScores: nat, nullTitles: nat, duplicateActivityIds: nat)

  /** The summary dictionary, without the floating-point score statistics and the
      extraction timestamp. */
  datatype Summary = Summary(
    totalRecords: nat,
    activityTypeCounts: map<string, nat>,
    courseCount: nat,
    studentCount: nat,
    statusDistribution: map<string, nat>,
    dataQualityChecks: QualityChecks)

  /** What combine_and_process_data returns: the combined records and their summary. */
  datatype Processed = Processed(data: seq<ActivityRecord>, summary: Summary)

  /** Looking up a column of a DataFrame that does not have it. */
  datatype Error = KeyError(column: string)

  /** `df[c].value_counts().to_dict()`. */
  function ValueCountsOf(rs: seq<ActivityRecord>, c: Column): map<string, nat> {
    ValueCounts(ColumnOf(rs, c))
  }

  /** `df[c].nunique()`. */
  function NUniqueOf(rs: seq<ActivityRecord>, c: Column): nat {
    NUnique(ColumnOf(rs, c))
  }

  /** `df[c].isnull().sum()`. */
  function NullsOf(rs: seq<ActivityRecord>, c: Column): nat {
    Sum(IsNull(ColumnOf(rs, c)))
  }

  /** `df['lms_la_score'].isnull().sum()`. */
  function NullScores(rs: seq<ActivityRecord>): nat {
    Sum(IsNull(ScoreColumn(rs)))
  }

  /** `df[c].duplicated().sum()`. */
  function DuplicatesOf(rs: seq<ActivityRecord>, c: Column): nat {
    Sum(Duplicated(ColumnOf(rs, c)))
  }

  /** The summary of a non-empty DataFrame built from `allData`. */
  function Summarize(allData: seq<ActivityRecord>): Summary {
    Summary(
      totalRecords := |allData|,
      activityTypeCounts := ValueCountsOf(allData, ActivityType),
      courseCount := NUniqueOf(allData, CourseId),
      studentCount := NUniqueOf(allData, StudentId),
      statusDistribution := ValueCountsOf(allData, Status),
      dataQualityChecks := QualityChecks(
        nullScores := NullScores(allData),
        nullTitles := NullsOf(allData, Title),
        duplicateActivityIds := DuplicatesOf(allData, ActivityId)))
  }

  /** combine_and_process_data. The five lists are concatenated in this order. A DataFrame
      built from no records has no columns, so when all five lists are empty the first
      column lookup, `df['lms_la_activity_type']`, raises a KeyError. */
  function CombineAndProcessData(
    assignments: seq<ActivityRecord>, quizzes: seq<ActivityRecord>, lessons: seq<ActivityRecord>,
    h5p: seq<ActivityRecord>, others: seq<ActivityRecord>): (r: Result<Processed, Error>)
    ensures r.Failure? <==> assignments == quizzes == lessons == h5p == others == []
    ensures r.Failure? ==> r.error == KeyError("lms_la_activity_type")
    ensures r.Success? ==> r.value.data == assignments + quizzes + lessons + h5p + others
    ensures r.Success? ==>
      r.value.summary.totalRecords == |assignments| + |quizzes| + |lessons| + |h5p| + |others|
  {
    var allData := assignments + quizzes + lessons + h5p + others;
    if allData == [] then Failure(KeyError(ColumnName(ActivityType)))
    else Success(Processed(allData, Summarize(allData)))
  }

  /** How many records have no value in column c. */
  function MissingIn(rs: seq<ActivityRecord>, c: Column): nat {
    multiset(ColumnOf(rs, c))[None]
  }

  /** `value_counts()` of a column maps exactly the values some record carries to the
      number of records carrying them, and its counts add up to the number of records that
      carry a value. */
  lemma ValueCountsOfMeaning(rs: seq<ActivityRecord>, c: Column)
    ensures forall t :: t in ValueCountsOf(rs, c) <==> exists k :: 0 <= k < |rs| && Field(rs[k], c) == Some(t)
    ensures forall t :: t in ValueCountsOf(rs, c) ==> ValueCountsOf(rs, c)[t] == multiset(ColumnOf(rs, c))[Some(t)]
    ensures SumValues(ValueCountsOf(rs, c)) + MissingIn(rs, c) == |rs|
  {
    var xs := ColumnOf(rs, c);
    ValueCountsMeaning(xs);
    ValueCountsTotal(xs);
    forall t | Some(t) in xs
      ensures exists k :: 0 <= k < |rs| && Field(rs[k], c) == Some(t)
    {
      var k :| 0 <= k < |xs| && xs[k] == Some(t);
    }
  }

  /** When every record has a value in column c, the counts of its `value_counts()` add up
      to the number of records. */
  lemma ValueCountsOfCoverAll(rs: seq<ActivityRecord>, c: Column)
    requires forall k :: 0 <= k < |rs| ==> Field(rs[k], c).Some?
    ensures SumValues(ValueCountsOf(rs, c)) == |rs|
  {
    ValueCountsTotal(ColumnOf(rs, c));
    assert None !in ColumnOf(rs, c);
  }

  /** `nunique()` of a column never exceeds the number of records; when some record has a
      value in it, it is at least 1. */
  lemma NUniqueOfBounds(rs: seq<ActivityRecord>, c: Column)
    ensures NUniqueOf(rs, c) <= |rs|
    ensures (exists k :: 0 <= k < |rs| && Field(rs[k], c).Some?) ==> NUniqueOf(rs, c) >= 1
  {
    if k :| 0 <= k < |rs| && Field(rs[k], c).Some? {
      assert ColumnOf(rs, c)[k].Some?;
    }
  }

  /** `isnull().sum()` counts the records without a value in the column (or without a score). */
  lemma NullsOfCount(rs: seq<ActivityRecord>, c: Column)
    ensures NullsOf(rs, c) == MissingIn(rs, c)
    ensures NullScores(rs) == multiset(ScoreColumn(rs))[None]
    ensures NullsOf(rs, c) == 0 <==> forall k :: 0 <= k < |rs| ==> Field(rs[k], c).Some?
    ensures NullScores(rs) == 0 <==> forall k :: 0 <= k < |rs| ==> rs[k].score.Some?
  {
    var xs, scores := ColumnOf(rs, c), ScoreColumn(rs);
    NullCount(xs);
    NullCount(scores);
    if NullsOf(rs, c) != 0 {
      assert None in xs;
    }
    if NullScores(rs) != 0 {
      assert None in scores;
    }
  }

  /** `duplicated().sum()` of a column is the number of records minus the number of distinct
      values (a missing value counting as one), and it is zero exactly when no two records
      share a value. */
  lemma DuplicatesOfCount(rs: seq<ActivityRecord>, c: Column)
    ensures DuplicatesOf(rs, c) == |rs| - |Elements(ColumnOf(rs, c))|
    ensures DuplicatesOf(rs, c) == 0 <==> forall i, j :: 0 <= i < j < |rs| ==> Field(rs[i], c) != Field(rs[j], c)
  {
    var xs := ColumnOf(rs, c);
    DuplicatedCount(xs);
    NoDuplicates(xs);
  }

  /** Appending a record whose value is already present in the column raises
      `duplicated().sum()` by one; appending one with a new value leaves it unchanged. */
  lemma DuplicatesOfAppend(rs: seq<ActivityRecord>, x: ActivityRecord, c: Column)
    ensures DuplicatesOf(rs + [x], c)
      == DuplicatesOf(rs, c) + (if exists k :: 0 <= k < |rs| && Field(rs[k], c) == Field(x, c) then 1 else 0)
  {
    var xs := ColumnOf(rs, c);
    assert ColumnOf(rs + [x], c) == xs + [Field(x, c)];
    DuplicatedSumSnoc(xs, Field(x, c));
    if Field(x, c) in xs {
      var k :| 0 <= k < |xs| && xs[k] == Field(x, c);
    }
  }

  /** A column of concatenated records is the concatenation of their columns. */
  lemma ColumnOfAppend(a: seq<ActivityRecord>, b: seq<ActivityRecord>, c: Column)
    ensures ColumnOf(a + b, c) == ColumnOf(a, c) + ColumnOf(b, c)
  {
  }

  /** The values the records carry in column c. */
  function Values(rs: seq<ActivityRecord>, c: Column): set<string> {
    set k | 0 <= k < |rs| && Field(rs[k], c).Some? :: Field(rs[k], c).value
  }

  /** `nunique()` of a column is the number of distinct values the records carry in it. */
  lemma NUniqueOfValues(rs: seq<ActivityRecord>, c: Column)
    ensures NUniqueOf(rs, c) == |Values(rs, c)|
  {
    var xs := ColumnOf(rs, c);
    forall v ensures v in NonNull(xs) <==> v in Values(rs, c) {
      if v in NonNull(xs) {
        var k :| 0 <= k < |xs| && xs[k] == Some(v);
        assert Field(rs[k], c).value == v;
      }
      if v in Values(rs, c) {
        var k :| 0 <= k < |rs| && Field(rs[k], c).Some? && Field(rs[k], c).value == v;
        assert xs[k] == Some(v);
      }
    }
    assert NonNull(xs) == Values(rs, c);
  }

  /** The keys of `value_counts()` of a column are the values the records carry in it. */
  lemma ValueCountsOfKeys(rs: seq<ActivityRecord>, c: Column)
    ensures ValueCountsOf(rs, c).Keys == Values(rs, c)
  {
    var xs := ColumnOf(rs, c);
    ValueCountsMeaning(xs);
    forall t ensures t in ValueCountsOf(rs, c) <==> t in Values(rs, c) {
      if t in ValueCountsOf(rs, c) {
        var k :| 0 <= k < |xs| && xs[k] == Some(t);
        assert Field(rs[k], c).value == t;
      }
      if t in Values(rs, c) {
        var k :| 0 <= k < |rs| && Field(rs[k], c).Some? && Field(rs[k], c).value == t;
        assert xs[k] == Some(t);
      }
    }
  }

  /** activity_type_counts maps exactly the types the records carry, each to the number of
      records carrying it; total_records is the number of records. */
  lemma SummarizeTypeCounts(allData: seq<ActivityRecord>)
    ensures Summarize(allData).totalRecords == |allData|
    ensures Summarize(allData).activityTypeCounts.Keys == Values(allData, ActivityType)
    ensures var m := Summarize(allData).activityTypeCounts;
      forall t :: t in m ==> m[t] == multiset(ColumnOf(allData, ActivityType))[Some(t)]
  {
    ValueCountsOfKeys(allData, ActivityType);
    ValueCountsOfMeaning(allData, ActivityType);
  }

  /** status_distribution maps exactly the statuses the records carry, each to the number of
      records carrying it. */
  lemma SummarizeStatuses(allData: seq<ActivityRecord>)
    ensures Summarize(allData).statusDistribution.Keys == Values(allData, Status)
    ensures var m := Summarize(allData).statusDistribution;
      forall t :: t in m ==> m[t] == multiset(ColumnOf(allData, Status))[Some(t)]
  {
    ValueCountsOfKeys(allData, Status);
    ValueCountsOfMeaning(allData, Status);
  }

  /** course_count and student_count are the numbers of distinct course and student ids. */
  lemma SummarizeDistinct(allData: seq<ActivityRecord>)
    ensures Summarize(allData).courseCount == |Values(allData, CourseId)|
    ensures Summarize(allData).studentCount == |Values(allData, StudentId)|
  {
    NUniqueOfValues(allData, CourseId);
    NUniqueOfValues(allData, StudentId);
  }

  /** The data quality checks: null_scores and null_titles count the records without a score
      or title, and duplicate_activity_ids is the number of records minus the number of
      distinct activity ids (a missing id counting as one). */
  lemma SummarizeQualityChecks(allData: seq<ActivityRecord>)
    ensures Summarize(allData).dataQualityChecks.nullScores == multiset(ScoreColumn(allData))[None]
    ensures Summarize(allData).dataQualityChecks.nullTitles == MissingIn(allData, Title)
    ensures Summarize(allData).dataQualityChecks.duplicateActivityIds
      == |allData| - |Elements(ColumnOf(allData, ActivityId))|
  {
    NullsOfCount(allData, Title);
    DuplicatesOfCount(allData, ActivityId);
  }
}
