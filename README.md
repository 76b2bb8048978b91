# Moodle learning activities flow, modelled in Dafny

The flow extracts Moodle learning-activity records for five kinds of activity: assignments,
quizzes, lessons, H5P content and "other" gradeable activities (forum, workshop, glossary,
wiki, choice). Each extract task calls a mock generator with a fixed record count. The generator
loops `num_records` times and appends one record dictionary with random ids, dates and choices
on each pass. The flow then concatenates the five lists and summarises them with pandas:
total records, per-type and per-status counts, distinct course and student counts, null scores
and titles, and duplicated activity ids.

The model has seven modules:

- `Wrappers` holds `Option` and `Result`.
- `Decimal` models `str(n)` for non-negative integers and reads a number back out of a string.
- `Records` holds the activity record (one `Option` per `lms_la_*` column) and its date ordering.
  Dates are integer seconds.
- `Series` models the pandas column operations `value_counts`, `nunique`, `isnull().sum()`
  and `duplicated().sum()` on a column of optional values.
- `MockData` holds the five generators. Each is a method whose `for` loop appends one record
  per iteration. The random draws of iteration `i` are the input `draws[i]`, whose type
  restricts it to the ranges and choice lists the generator draws from. `datetime.now()` on
  that iteration is the draw's `clock`.
- `Aggregation` models `combine_and_process_data`.
- `Flow` models the extract tasks with their fixed counts, and the flow itself.

An empty combination has no columns, so the first column lookup fails. The code raises in
that case rather than returning an empty summary, and the model follows the code: it returns
`Failure(KeyError("lms_la_activity_type"))`.

## Model

| member | source | states |
|---|---|---|
| Decimal.Show | moodle_learning_activities_flow.py:17-18 | `str(n)`: a non-empty digit string that starts with '0' only for 0; ParseShow and ShowInjective give its meaning |
| Decimal.ParseShow | moodle_learning_activities_flow.py:17-18 | reading back the digits `str(n)` writes gives n again |
| Decimal.NumberAfterShow | moodle_learning_activities_flow.py:21 | in `prefix + str(n) + rest`, where rest does not start with a digit, the number after prefix is n |
| Decimal.ShowIn | moodle_learning_activities_flow.py:17-19 | `str(n)` of an n in [lo, hi] is a digit string whose value is in [lo, hi] |
| Decimal.ShowInjective | moodle_learning_activities_flow.py:21 | distinct numbers have distinct decimal strings |
| Series.Sum | moodle_learning_activities_flow.py:590-592 | `mask.sum()` is the number of true entries of the mask |
| Series.ValueCounts | moodle_learning_activities_flow.py:577 | `value_counts()`: at most one key per non-null entry; ValueCountsMeaning and ValueCountsTotal give its meaning |
| Series.IsNull | moodle_learning_activities_flow.py:590-591 | `isnull()`: the mask of missing entries; NullCount gives the meaning of its sum |
| Series.Duplicated | moodle_learning_activities_flow.py:592 | `duplicated()` with keep='first': flags positions whose value occurs earlier; DuplicatedCount and NoDuplicates give the meaning of its sum |
| Series.NUnique | moodle_learning_activities_flow.py:578-579 | the distinct count is at most the column length, and it is 0 exactly when every entry is null |
| Series.NonNull | moodle_learning_activities_flow.py:578-579 | the set of non-null values holds exactly the values some entry carries |
| Series.ValueCountsMeaning | moodle_learning_activities_flow.py:577 | value_counts has a key for a value exactly when some entry carries it, with the number of entries carrying it |
| Series.ValueCountsTotal | moodle_learning_activities_flow.py:580 | the counts of value_counts plus the number of nulls add up to the column length |
| Series.NullCount | moodle_learning_activities_flow.py:590-591 | `isnull().sum()` is the number of null entries |
| Series.DuplicatedCount | moodle_learning_activities_flow.py:592 | `duplicated().sum()` is the column length minus the number of distinct entries |
| Series.NoDuplicates | moodle_learning_activities_flow.py:592 | `duplicated().sum()` is 0 exactly when the entries are pairwise distinct |
| Series.ConstantOccurrences | moodle_learning_activities_flow.py:20 | a column that holds one value throughout contains it as many times as it is long |
| MockData.AssignmentRecord | moodle_learning_activities_flow.py:15-40 | the dictionary appended on one iteration, built from that iteration's draw; AssignmentRecordShaped gives its shape |
| MockData.AssignmentRecordShaped | moodle_learning_activities_flow.py:15-40 | the record has type "assignment" and an id starting `assign_<100..999>`; its title is "Assignment i+1: ..."; its course, student and result ids and its drawn options are in range; publication ≤ unlock ≤ due ≤ lock and start ≤ finish; it was published 1 to 90 days before the clock |
| MockData.GenerateMockAssignmentData | moodle_learning_activities_flow.py:11-42 | returns `len(range(num_records))` records, the i-th built from the i-th draw and shaped as an assignment with number i+1 |
| MockData.QuizRecord | moodle_learning_activities_flow.py:49-74 | the dictionary appended on one iteration, built from that iteration's draw; QuizRecordShaped gives its shape |
| MockData.QuizRecordShaped | moodle_learning_activities_flow.py:49-74 | the record has type "quiz", an id starting `quiz_<100..999>` and title "Quiz i+1: ..."; unlock = publication ≤ due = lock, start ≤ finish, and its drawn options are in range |
| MockData.GenerateMockQuizData | moodle_learning_activities_flow.py:45-76 | returns `len(range(num_records))` records, the i-th built from the i-th draw and shaped as a quiz with number i+1 |
| MockData.LessonRecord | moodle_learning_activities_flow.py:83-108 | the dictionary appended on one iteration, built from that iteration's draw; LessonRecordShaped gives its shape |
| MockData.LessonRecordShaped | moodle_learning_activities_flow.py:83-108 | the record has type "lesson", an id starting `lesson_<100..999>` and title "Lesson i+1: ..."; due = lock after publication, start = publication ≤ finish, and its drawn options are in range |
| MockData.GenerateMockLessonData | moodle_learning_activities_flow.py:79-110 | returns `len(range(num_records))` records, the i-th built from the i-th draw and shaped as a lesson with number i+1 |
| MockData.H5PRecord | moodle_learning_activities_flow.py:117-142 | the dictionary appended on one iteration, built from that iteration's draw; H5PRecordShaped gives its shape |
| MockData.H5PRecordShaped | moodle_learning_activities_flow.py:117-142 | the record has type "h5p", status "published", no unlock, lock or due date, an id starting `h5p_<100..999>`, and title "Interactive Content i+1: ..."; it finishes 5 to 30 minutes after it starts |
| MockData.GenerateMockH5PData | moodle_learning_activities_flow.py:113-144 | returns `len(range(num_records))` records, the i-th built from the i-th draw and shaped as H5P content with number i+1 |
| MockData.OtherRecord | moodle_learning_activities_flow.py:150-178 | the dictionary appended on one iteration, built from that iteration's draw; OtherRecordShaped gives its shape |
| MockData.OtherRecordShaped | moodle_learning_activities_flow.py:150-178 | the record's type is one of forum/workshop/glossary/wiki/choice, and its id starts with that type, `_` and a number in 100..999; its title is the title-cased type + " Activity i+1"; attempt = total attempts = 1; it finishes 1 to 24 hours after it starts |
| MockData.GenerateMockOtherData | moodle_learning_activities_flow.py:147-180 | returns `len(range(num_records))` records, the i-th built from the i-th draw and shaped as an "other" activity with number i+1 |
| MockData.TitleCase | moodle_learning_activities_flow.py:159 | `str.title()` on ASCII text; the result has the length of the input, and TitleCaseWord gives its meaning on a lower-case word |
| MockData.TitleCaseAfterLetter | moodle_learning_activities_flow.py:159 | after a letter, `str.title()` leaves a lower-case word unchanged |
| MockData.TitleCaseWord | moodle_learning_activities_flow.py:159 | `str.title()` of a lower-case word upper-cases its first letter and keeps the rest |
| MockData.OtherTypeTitle | moodle_learning_activities_flow.py:159 | each of the five "other" types title-cases to itself with its first letter upper-cased ("forum" to "Forum", ...) |
| MockData.NumberedTitlesDistinct | moodle_learning_activities_flow.py:21 | a generator's records, numbered by position after one prefix, have pairwise distinct titles |
| Aggregation.Summarize | moodle_learning_activities_flow.py:575-594 | the summary dictionary of a non-empty DataFrame; SummarizeTypeCounts, SummarizeStatuses, SummarizeDistinct and SummarizeQualityChecks give each field its meaning |
| Aggregation.SummarizeTypeCounts | moodle_learning_activities_flow.py:576-577 | total_records is the record count; activity_type_counts has exactly the carried types as keys, each mapped to the number of records carrying it |
| Aggregation.SummarizeStatuses | moodle_learning_activities_flow.py:580 | status_distribution has exactly the carried statuses as keys, each mapped to the number of records carrying it |
| Aggregation.SummarizeDistinct | moodle_learning_activities_flow.py:578-579 | course_count and student_count are the sizes of the sets of course and student ids the records carry |
| Aggregation.SummarizeQualityChecks | moodle_learning_activities_flow.py:589-593 | null_scores and null_titles are the numbers of records without a score or title; duplicate_activity_ids is the record count minus the number of distinct activity ids |
| Aggregation.CombineAndProcessData | moodle_learning_activities_flow.py:556-603 | fails with KeyError on the activity-type column exactly when all five lists are empty; otherwise the data is the five lists concatenated in order and total_records is the sum of their lengths |
| Aggregation.ColumnOfAppend | moodle_learning_activities_flow.py:569 | the column of a concatenation is the concatenation of the columns |
| Aggregation.ValueCountsOfKeys | moodle_learning_activities_flow.py:577-580 | the keys of a column's value_counts are the values the records carry in it |
| Aggregation.NUniqueOfValues | moodle_learning_activities_flow.py:578-579 | a column's nunique is the number of distinct values the records carry in it |
| Aggregation.ValueCountsOfMeaning | moodle_learning_activities_flow.py:577-580 | a type or status is a key exactly when some record carries it, and maps to the number of such records; the counts plus the missing entries add up to the record count |
| Aggregation.ValueCountsOfCoverAll | moodle_learning_activities_flow.py:577-580 | when no record misses the column, the counts add up to the record count |
| Aggregation.NUniqueOfBounds | moodle_learning_activities_flow.py:578-579 | the distinct course or student count is at most the record count, and at least 1 when some record has an id |
| Aggregation.NullsOfCount | moodle_learning_activities_flow.py:590-591 | null_titles and null_scores count the records missing a title or a score, and are 0 exactly when none does |
| Aggregation.DuplicatesOfCount | moodle_learning_activities_flow.py:592 | duplicate_activity_ids is the record count minus the number of distinct ids, and is 0 exactly when the ids are pairwise distinct |
| Aggregation.DuplicatesOfAppend | moodle_learning_activities_flow.py:592 | appending a record raises duplicate_activity_ids by 1 if its id is already present, by 0 otherwise |
| Flow.ExtractAssignmentData | moodle_learning_activities_flow.py:444-463 | returns 100 assignment-shaped records, the k-th built from the k-th draw |
| Flow.ExtractQuizData | moodle_learning_activities_flow.py:468-485 | returns 150 quiz-shaped records, the k-th built from the k-th draw |
| Flow.ExtractLessonData | moodle_learning_activities_flow.py:490-507 | returns 80 lesson-shaped records, the k-th built from the k-th draw |
| Flow.ExtractH5PData | moodle_learning_activities_flow.py:512-529 | returns 60 H5P-shaped records, the k-th built from the k-th draw |
| Flow.ExtractOtherActivitiesData | moodle_learning_activities_flow.py:534-551 | returns 40 records shaped as "other" activities, the k-th built from the k-th draw |
| Flow.GeneratedRecords | moodle_learning_activities_flow.py:569 | every record in a combination of generated lists has ids, type, title, status and score present, ordered dates, and a published or unpublished status |
| Flow.TypeOccurrences | moodle_learning_activities_flow.py:20 | a list of one generator's records carries its own type once per record and no other type |
| Flow.OtherTypesInColumn | moodle_learning_activities_flow.py:150-152 | a column holding only the five "other" types holds each some number of times, and these numbers add up to its length |
| Flow.OtherTypesPartition | moodle_learning_activities_flow.py:150-152 | the counts of the five "other" types in that generator's output add up to its length |
| Flow.CountIsOccurrences | moodle_learning_activities_flow.py:577 | looking a value up in value_counts, with 0 for a missing key, gives the number of records carrying it |
| Flow.TypeCount | moodle_learning_activities_flow.py:577 | the count for a type in the combined list is the length of the list that generator produced, and 0 for types no generator produces |
| Flow.TypeCountsOfGenerated | moodle_learning_activities_flow.py:577 | in activity_type_counts, "assignment", "quiz", "lesson" and "h5p" map to their list lengths, and the five other types together to the "other" list's length |
| Flow.CleanDistributions | moodle_learning_activities_flow.py:577-580 | for well-formed records, both value_counts sum to the record count and the statuses are published/unpublished |
| Flow.CleanCounts | moodle_learning_activities_flow.py:578-591 | for non-empty well-formed records, the course and student counts are between 1 and the record count, and no score or title is null |
| Flow.CleanSummary | moodle_learning_activities_flow.py:576-592 | for non-empty well-formed records: both distributions sum to total_records; statuses are published/unpublished; course and student counts are between 1 and total_records; null_scores = null_titles = 0 |
| Flow.GeneratedSummary | moodle_learning_activities_flow.py:556-603 | combining generated lists that are not all empty succeeds, and the summary has the counts above in terms of the five lengths |
| Flow.CombinedBuiltFrom | moodle_learning_activities_flow.py:569 | in the concatenation of the five generators' outputs, the k-th record of each segment is the one built from the k-th draw of its task |
| Flow.CombinedShapedInOrder | moodle_learning_activities_flow.py:569 | in the concatenation of generated lists, each record has the shape its generator gives the record at its position |
| Flow.MoodleLearningActivitiesFlow | moodle_learning_activities_flow.py:611-659 | the flow succeeds with 430 records: 100 assignments, then 150 quizzes, 80 lessons, 60 H5P and 40 others, in that order; the k-th record of each segment is built from the k-th draw of its task and has its generator's shape; the type counts are 100/150/80/60 and 40 for the other types together; the distribution, distinct-count and null-count facts hold |

## Left out

- Prefect's `@task`/`@flow`, `.submit()` and `.result()`: the concurrency belongs to the framework. The five tasks all draw from one module-level random generator, so concurrently their draws may interleave. In the model each task's draws are an input of their own, so the flow can run the tasks one after another and get the same five lists.
- `time.sleep`, the logger calls, the `__main__` printing and the logging of `SQL_QUERIES`: these are I/O and timing only. The SQL text is logged and returned but never executed, so the model does not carry it in the result.
- `average_score`, `score_statistics` (min, max, mean, median) and the rounding of `random.uniform` values: these are floating-point statistics. Scores and times taken are unconstrained `real` draws, and only whether a score is null is modelled.
- `extraction_timestamp` and `execution_metadata`: these are wall-clock values.
- `datetime.now()`, `timedelta` and `.isoformat()`: dates are integer seconds, and the date offsets are exact. The ISO string format is not modelled.
- The random source: each iteration's random values form one input draw, restricted to the ranges and choice lists the code draws from. The order in which the code makes its random calls is not modelled.
- MockData.TitleCase: models `str.title()` on ASCII letters only. This is enough for the five fixed activity-type names.
- `value_counts().to_dict()` orders its keys by descending count. The model's maps carry the same keys and counts but no key order.
- MockData.AssignmentRecordShaped: does not constrain the title's trailing word or the activity id's trailing number (0 to 5). The record equality with AssignmentRecord fixes both, but no shape lemma states their ranges.
- MockData.QuizRecordShaped: does not constrain the title's trailing word or the activity id's trailing number (1 to 3), for the same reason.
- MockData.LessonRecordShaped: does not constrain the title's trailing word or the activity id's trailing number (0 to 2), for the same reason.
- MockData.H5PRecordShaped: does not constrain the title's trailing word or the activity id's trailing number (1 to 5), for the same reason.
- MockData.OtherRecordShaped: does not constrain the activity id's trailing number (10000 to 99999), for the same reason.
