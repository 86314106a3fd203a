/**
 * The paper creation page (client/src/pages/QuestionPapers/CreatePaper.jsx):
 * the question distribution and its edits, the totals shown, the form
 * schema, the sanitised request that asks for questions, and the saved
 * paper.
 */
module CreatePaper {
  import opened Common
  import opened Api
  import opened Papers
  import opened AuthContext

  const QuestionTypes: seq<string> := ["mcq", "short", "long", "diagram", "code", "hots", "case_study"]
  const Difficulties: seq<string> := ["easy", "medium", "hard"]
  const BloomsLevels: seq<string> := ["remember", "understand", "apply", "analyze", "evaluate", "create"]
  const DefaultModel: string := "llama3-70b-8192"
  const DefaultBloomsLevel: string := "understand"
  const DefaultSubject: string := "General"
  const DefaultTotalMarks: int := 100
  const DefaultDuration: int := 120

  const LoginToGenerate: string := "Please login to generate questions"
  const TopicNeeded: string := "Please enter a topic for the questions"
  const RetryGenerate: string := "Failed to generate questions. Please try again."
  const GenerateFailed: string := "Failed to generate questions. Please check your parameters and try again."
  const LoginToSave: string := "Please login to save the question paper"
  const SaveFailed: string := "Failed to save question paper. Please try again."

  /** `defaultMarksMap`. */
  const DefaultMarksMap: map<string, int> :=
    map["mcq" := 1, "short" := 3, "long" := 5, "diagram" := 4, "code" := 5, "hots" := 8, "case_study" := 10]

  /** One row of the question distribution. */
  datatype Row = Row(qtype: string, count: int, difficulty: string, marks: int)

  /** `defaultMarksMap[t] || 1`. */
  function DefaultMarks(t: string): (m: int)
    ensures m >= 1
    ensures t in DefaultMarksMap ==> m == DefaultMarksMap[t]
    ensures t !in DefaultMarksMap ==> m == 1
  {
    if t in DefaultMarksMap && DefaultMarksMap[t] != 0 then DefaultMarksMap[t] else 1
  }

  /** The row `addQuestionType` appends. */
  const NewRow: Row := Row("mcq", 1, "medium", DefaultMarksMap["mcq"])

  const InitialRows: seq<Row> :=
    [Row("mcq", 10, "easy", 1), Row("short", 5, "medium", 3), Row("long", 2, "hard", 5)]

  /** `totalQuestionCount`: the sum of the counts. */
  function TotalCount(rows: seq<Row>): int
  {
    if |rows| == 0 then 0 else TotalCount(rows[..|rows| - 1]) + rows[|rows| - 1].count
  }

  /** `totalMarks`: the sum of count times marks. */
  function TotalMarks(rows: seq<Row>): int
  {
    if |rows| == 0 then 0
    else TotalMarks(rows[..|rows| - 1]) + rows[|rows| - 1].count * rows[|rows| - 1].marks
  }

  /** Both totals add up block by block. */
  lemma {:induction false} TotalsAppend(a: seq<Row>, b: seq<Row>)
    ensures TotalCount(a + b) == TotalCount(a) + TotalCount(b)
    ensures TotalMarks(a + b) == TotalMarks(a) + TotalMarks(b)
    decreases |b|
  {
    if |b| > 0 {
      assert (a + b)[..|a + b| - 1] == a + b[..|b| - 1];
      TotalsAppend(a, b[..|b| - 1]);
    } else {
      assert a + b == a;
    }
  }

  /** The totals over rows `rows[..i] + [r] + rows[i + 1..]` split at `i`. */
  lemma TotalsAround(rows: seq<Row>, i: nat)
    requires i < |rows|
    ensures TotalCount(rows) == TotalCount(rows[..i]) + rows[i].count + TotalCount(rows[i + 1..])
    ensures TotalMarks(rows) == TotalMarks(rows[..i]) + rows[i].count * rows[i].marks + TotalMarks(rows[i + 1..])
  {
    assert rows == rows[..i] + [rows[i]] + rows[i + 1..];
    TotalsAppend(rows[..i] + [rows[i]], rows[i + 1..]);
    TotalsAppend(rows[..i], [rows[i]]);
    assert [rows[i]][..0] == [];
  }

  /** `questionTypes.filter((_, i) => i !== index)`. */
  function RemoveAt(rows: seq<Row>, index: int): (r: seq<Row>)
    ensures 0 <= index < |rows| ==>
      (|r| == |rows| - 1
       && (forall k :: 0 <= k < index ==> r[k] == rows[k])
       && (forall k :: index <= k < |r| ==> r[k] == rows[k + 1]))
    ensures !(0 <= index < |rows|) ==> r == rows
  {
    if 0 <= index < |rows| then rows[..index] + rows[index + 1..] else rows
  }

  /** A change made through the row's controls. */
  datatype Edit = SetType(t: string) | SetCount(n: int) | SetDifficulty(d: string) | SetMarks(m: int)

  /** `updatedTypes[index][field] = value`, and on a type change the marks
      reset to the type's default. */
  function Apply(r: Row, e: Edit): Row
  {
    match e
    case SetType(t) => r.(qtype := t, marks := DefaultMarks(t))
    case SetCount(n) => r.(count := n)
    case SetDifficulty(d) => r.(difficulty := d)
    case SetMarks(m) => r.(marks := m)
  }

  function UpdateAt(rows: seq<Row>, index: nat, e: Edit): seq<Row>
    requires index < |rows|
  {
    rows[index := Apply(rows[index], e)]
  }

  /** Adding a row adds one question worth its default marks; removing
      the row just added gives the distribution back. */
  lemma AddSpec(rows: seq<Row>)
    ensures TotalCount(rows + [NewRow]) == TotalCount(rows) + 1
    ensures TotalMarks(rows + [NewRow]) == TotalMarks(rows) + DefaultMarks("mcq")
    ensures RemoveAt(rows + [NewRow], |rows|) == rows
  {
    TotalsAppend(rows, [NewRow]);
    assert [NewRow][..0] == [];
  }

  /** Removing row `i` takes away exactly its questions and marks. */
  lemma RemoveSpec(rows: seq<Row>, i: nat)
    requires i < |rows|
    ensures TotalCount(RemoveAt(rows, i)) == TotalCount(rows) - rows[i].count
    ensures TotalMarks(RemoveAt(rows, i)) == TotalMarks(rows) - rows[i].count * rows[i].marks
  {
    TotalsAround(rows, i);
    TotalsAppend(rows[..i], rows[i + 1..]);
  }

  /** An edit changes row `i` and no other; only the edited field changes,
      except that a new type also brings its default marks; the totals move
      by the difference the row makes. */
  lemma UpdateSpec(rows: seq<Row>, i: nat, e: Edit)
    requires i < |rows|
    ensures |UpdateAt(rows, i, e)| == |rows|
    ensures forall k :: 0 <= k < |rows| && k != i ==> UpdateAt(rows, i, e)[k] == rows[k]
    ensures var r := UpdateAt(rows, i, e)[i];
      match e
      case SetType(t) => r == rows[i].(qtype := t, marks := DefaultMarks(t))
      case SetCount(n) => r == rows[i].(count := n)
      case SetDifficulty(d) => r == rows[i].(difficulty := d)
      case SetMarks(m) => r == rows[i].(marks := m)
    ensures var r := UpdateAt(rows, i, e)[i];
      TotalCount(UpdateAt(rows, i, e)) == TotalCount(rows) - rows[i].count + r.count
      && TotalMarks(UpdateAt(rows, i, e)) == TotalMarks(rows) - rows[i].count * rows[i].marks + r.count * r.marks
  {
    var u := UpdateAt(rows, i, e);
    TotalsAround(rows, i);
    TotalsAround(u, i);
    assert u[..i] == rows[..i];
    assert u[i + 1..] == rows[i + 1..];
  }

  /** What the schema asks of one row. */
  predicate RowAccepted(r: Row)
  {
    r.qtype in QuestionTypes && r.count >= 0 && r.difficulty in Difficulties && r.marks >= 1
  }

  predicate RowsAccepted(rows: seq<Row>)
  {
    forall i :: 0 <= i < |rows| ==> RowAccepted(rows[i])
  }

  /** The values the schema accepts for a row: a listed type, a count of
      zero or more, a listed difficulty, marks of one or more. */
  predicate EditAccepted(e: Edit)
  {
    match e
    case SetType(t) => t in QuestionTypes
    case SetCount(n) => n >= 0
    case SetDifficulty(d) => d in Difficulties
    case SetMarks(m) => m >= 1
  }

  /** Adding, removing and accepted edits keep every row acceptable to the
      schema; a type change stays acceptable because each listed type has
      default marks of at least one. */
  lemma EditsKeepRowsAccepted(rows: seq<Row>, i: nat, e: Edit, j: int)
    requires RowsAccepted(rows)
    ensures RowsAccepted(rows + [NewRow])
    ensures RowsAccepted(RemoveAt(rows, j))
    ensures i < |rows| && EditAccepted(e) ==> RowsAccepted(UpdateAt(rows, i, e))
  {
    assert RowAccepted(NewRow);
    if 0 <= j < |rows| {
      var r := RemoveAt(rows, j);
      forall k | 0 <= k < |r|
        ensures RowAccepted(r[k])
      {
        if k >= j {
          assert r[k] == rows[k + 1];
        }
      }
    }
  }

  /** The step-one form values (`formData` has the same fields). `""`
      stands for an absent string; `duration` is `None` when the field
      holds no number. */
  datatype Details = Details(title: string, subject: string, description: string, duration: Option<int>,
                             syllabus: string, topic: string, bloomsLevel: string, model: string,
                             educationalLevel: string)

  const InitialDetails: Details :=
    Details("", "", "", Some(DefaultDuration), "", "", DefaultBloomsLevel, DefaultModel, "")

  /** A reason `questionSchema` rejects the form. */
  datatype Issue =
    | TitleRequired
    | SubjectRequired
    | DurationInvalid
    | TopicRequired
    | NoQuestionTypes
    | RowRejected(index: nat)
    | BloomsLevelRejected

  /** The message the schema gives for an issue, where it names one. */
  function IssueMessage(i: Issue): Option<string>
  {
    match i
    case TitleRequired => Some("Title is required")
    case SubjectRequired => Some("Subject is required")
    case TopicRequired => Some("Topic is required")
    case NoQuestionTypes => Some("At least one question type must be selected")
    case _ => None
  }

  /** The issues the schema can raise for a distribution of `n` rows. */
  function PossibleIssues(n: nat): set<Issue>
  {
    {TitleRequired, SubjectRequired, DurationInvalid, TopicRequired, NoQuestionTypes, BloomsLevelRejected}
    + (set i: nat | i < n :: RowRejected(i))
  }

  /** The schema's rule behind each issue holds for the values. */
  predicate Raises(d: Details, rows: seq<Row>, x: Issue)
  {
    match x
    case TitleRequired => d.title == ""
    case SubjectRequired => d.subject == ""
    case DurationInvalid => !(d.duration.Some? && d.duration.value >= 1)
    case TopicRequired => d.topic == ""
    case NoQuestionTypes => |rows| == 0
    case RowRejected(i) => i < |rows| && !RowAccepted(rows[i])
    case BloomsLevelRejected => d.bloomsLevel != "" && d.bloomsLevel !in BloomsLevels
  }

  /** Every issue the schema finds with the values and the distribution. */
  function SchemaIssues(d: Details, rows: seq<Row>): (issues: set<Issue>)
    ensures TitleRequired in issues <==> d.title == ""
    ensures SubjectRequired in issues <==> d.subject == ""
    ensures DurationInvalid in issues <==> !(d.duration.Some? && d.duration.value >= 1)
    ensures TopicRequired in issues <==> d.topic == ""
    ensures NoQuestionTypes in issues <==> |rows| == 0
    ensures forall i: nat :: RowRejected(i) in issues <==> i < |rows| && !RowAccepted(rows[i])
    ensures BloomsLevelRejected in issues <==> d.bloomsLevel != "" && d.bloomsLevel !in BloomsLevels
  {
    set x | x in PossibleIssues(|rows|) && Raises(d, rows, x)
  }

  predicate SchemaAccepts(d: Details, rows: seq<Row>)
  {
    SchemaIssues(d, rows) == {}
  }

  /** The schema accepts exactly the forms with a title, a subject, a
      topic, a duration of at least one minute, an optional listed Bloom
      level, and a non-empty distribution of acceptable rows. */
  lemma SchemaAcceptsIff(d: Details, rows: seq<Row>)
    ensures SchemaAccepts(d, rows) <==>
      d.title != "" && d.subject != "" && d.topic != ""
      && d.duration.Some? && d.duration.value >= 1
      && (d.bloomsLevel == "" || d.bloomsLevel in BloomsLevels)
      && |rows| > 0 && RowsAccepted(rows)
  {
    var issues := SchemaIssues(d, rows);
    if !RowsAccepted(rows) {
      var i :| 0 <= i < |rows| && !RowAccepted(rows[i]);
      assert RowRejected(i) in issues;
    }
    if issues != {} {
      var x :| x in issues;
      if x.RowRejected? {
        assert x.index < |rows| && !RowAccepted(rows[x.index]);
      }
    }
  }

  /** The row as `generateQuestions` sends it: `type || 'mcq'`,
      `parseInt(count) || 1`, a difficulty outside the list becomes
      'medium', and `parseInt(marks) || 1`. */
  function SanitizeRow(r: Row): Row
  {
    Row(if r.qtype != "" then r.qtype else "mcq",
        if r.count != 0 then r.count else 1,
        if r.difficulty in Difficulties then r.difficulty else "medium",
        if r.marks != 0 then r.marks else 1)
  }

  function SanitizeAll(rows: seq<Row>): (r: seq<Row>)
    ensures |r| == |rows| && forall i :: 0 <= i < |rows| ==> r[i] == SanitizeRow(rows[i])
  {
    seq(|rows|, i requires 0 <= i < |rows| => SanitizeRow(rows[i]))
  }

  /** A sanitised row always has a type, a non-zero count and marks and a
      listed difficulty; sanitising twice changes nothing more; a row the
      schema accepts goes out as it is unless its count is zero, which goes
      out as one. */
  lemma SanitizeSpec(r: Row)
    ensures var s := SanitizeRow(r);
      s.qtype != "" && s.count != 0 && s.marks != 0 && s.difficulty in Difficulties
    ensures SanitizeRow(SanitizeRow(r)) == SanitizeRow(r)
    ensures RowAccepted(r) && r.count != 0 ==> SanitizeRow(r) == r
    ensures r.count == 0 ==> SanitizeRow(r).count == 1
  {
  }

  function ZeroCount(r: Row): bool
  {
    r.count == 0
  }

  /** The request asks for one more question per row whose count is zero
      than the distribution on screen shows. */
  lemma {:induction false} SanitizedCount(rows: seq<Row>)
    ensures TotalCount(SanitizeAll(rows)) == TotalCount(rows) + Count(rows, ZeroCount)
  {
    if |rows| > 0 {
      var init := rows[..|rows| - 1];
      SanitizedCount(init);
      assert SanitizeAll(rows)[..|rows| - 1] == SanitizeAll(init);
    }
  }

  /** The body of `POST /api/v1/question-papers/generate`. */
  datatype GenerateRequest = GenerateRequest(
    topic: string, subject: string, difficulty: string, questionDistribution: seq<Row>,
    description: string, syllabus: string, educationalLevel: string, model: string,
    bloomsLevel: string, totalMarks: int, duration: int)

  function OrDefault(s: string, fallback: string): string
  {
    if s != "" then s else fallback
  }

  /** `requestData` built from `formData` and the distribution. */
  function BuildRequest(d: Details, rows: seq<Row>): GenerateRequest
  {
    GenerateRequest(
      d.topic, OrDefault(d.subject, DefaultSubject), "medium", SanitizeAll(rows),
      d.description, d.syllabus, d.educationalLevel, OrDefault(d.model, DefaultModel),
      OrDefault(d.bloomsLevel, DefaultBloomsLevel),
      if TotalMarks(rows) != 0 then TotalMarks(rows) else DefaultTotalMarks,
      if d.duration.Some? && d.duration.value != 0 then d.duration.value else DefaultDuration)
  }

  /** The request never carries an empty subject, model or Bloom level, a
      zero total or a zero duration, and keeps the form's topic, its
      subject, its total marks and its duration where they are set. */
  lemma BuildRequestDefaults(d: Details, rows: seq<Row>)
    ensures var q := BuildRequest(d, rows);
      q.topic == d.topic && q.subject != "" && q.model != "" && q.bloomsLevel != ""
      && q.difficulty == "medium" && q.totalMarks != 0 && q.duration != 0
      && (TotalMarks(rows) != 0 ==> q.totalMarks == TotalMarks(rows))
      && (d.duration.Some? && d.duration.value >= 1 ==> q.duration == d.duration.value)
      && (d.subject != "" ==> q.subject == d.subject)
  {
  }

  /** For a form the schema accepts with no zero count, the distribution
      goes out exactly as it is on screen. */
  lemma BuildRequestKeepsRows(d: Details, rows: seq<Row>)
    requires SchemaAccepts(d, rows)
    requires forall i :: 0 <= i < |rows| ==> rows[i].count != 0
    ensures BuildRequest(d, rows).questionDistribution == rows
  {
    SchemaAcceptsIff(d, rows);
    forall i | 0 <= i < |rows|
      ensures SanitizeRow(rows[i]) == rows[i]
    {
      SanitizeSpec(rows[i]);
    }
  }

  /** One entry of a 400 reply's `errors` list. */
  datatype FieldError = FieldError(param: string, msg: string)

  function ErrorTexts(errors: seq<FieldError>): (r: seq<string>)
    ensures |r| == |errors| && forall i :: 0 <= i < |errors| ==> r[i] == errors[i].param + ": " + errors[i].msg
  {
    seq(|errors|, i requires 0 <= i < |errors| => errors[i].param + ": " + errors[i].msg)
  }

  /** How a failed `generateQuestions` ends: the error shown, the
      `generatingQuestions` flag, and whether the handler's promise
      rejects. */
  datatype CatchEnd = CatchEnd(error: string, generating: bool, rejects: bool)

  /** The `catch` and `finally` of `generateQuestions` as written, given the
      error shown on entry: the `catch` first reads
      `validatedQuestionDistribution`, a `const` of the `try` block, so a
      `ReferenceError` is thrown before any `setError`; the `finally` still
      clears the flag, and the `ReferenceError` leaves the handler. */
  function GenerateCatchAsWritten(errorOnEntry: string): CatchEnd
  {
    CatchEnd(errorOnEntry, false, true)
  }

  /** The message the `catch` evidently means to show: a 400 with an
      `errors` list lists them, else the reply's message, else the generic
      text. */
  function GenerateFailureMessage<T>(o: Response<T>, errors: Option<seq<FieldError>>): (m: string)
  {
    if o.Rejected? && o.status == 400 && errors.Some? then
      "Validation error: " + Join(ErrorTexts(errors.value), ", ")
    else FailureMessage(o, GenerateFailed)
  }

  /** The `catch` and `finally` as evidently intended. */
  function GenerateCatchCorrected<T>(o: Response<T>, errors: Option<seq<FieldError>>): CatchEnd
  {
    CatchEnd(GenerateFailureMessage(o, errors), false, false)
  }

  /** Every failure reaches the `catch` after the `setError('')` at the
      start of the `try`. As written the page then keeps that empty error
      and the handler rejects, whatever went wrong; the corrected handler
      always shows a non-empty message, a 400 with errors names each
      field, and it does not reject. Both clear the flag. */
  lemma GenerateFailureShown<T>(o: Response<T>, errors: Option<seq<FieldError>>)
    ensures GenerateCatchAsWritten("").error == "" && GenerateCatchAsWritten("").rejects
    ensures GenerateCatchCorrected(o, errors).error != "" && !GenerateCatchCorrected(o, errors).rejects
    ensures !GenerateCatchAsWritten("").generating && !GenerateCatchCorrected(o, errors).generating
    ensures GenerateCatchAsWritten("") != GenerateCatchCorrected(o, errors)
    ensures o.Rejected? && o.status == 400 && errors.Some? ==>
      GenerateFailureMessage(o, errors)[..|"Validation error: "|] == "Validation error: "
    ensures !(o.Rejected? && o.status == 400 && errors.Some?) ==>
      GenerateFailureMessage(o, errors) == FailureMessage(o, GenerateFailed)
  {
  }

  /** `formData.syllabus ? formData.syllabus.split(',').map(s => s.trim()) : []`. */
  function SyllabusList(s: string): (items: seq<string>)
  {
    if s == "" then [] else TrimAll(Split(s, ','))
  }

  function TrimAll(parts: seq<string>): (r: seq<string>)
    ensures |r| == |parts| && forall i :: 0 <= i < |parts| ==> r[i] == Trim(parts[i])
  {
    seq(|parts|, i requires 0 <= i < |parts| => Trim(parts[i]))
  }

  lemma TrimKeepsOut(s: string, c: char)
    requires c !in s
    ensures c !in Trim(s)
  {
    var a :| TrimmedAt(Trim(s), s, a);
  }

  /** The syllabus is empty only for an empty field, and every item is
      trimmed and holds no comma. */
  lemma SyllabusItems(s: string)
    ensures (SyllabusList(s) == []) <==> s == ""
    ensures forall i :: 0 <= i < |SyllabusList(s)| ==>
      Trim(SyllabusList(s)[i]) == SyllabusList(s)[i] && ',' !in SyllabusList(s)[i]
  {
    if s != "" {
      var parts := Split(s, ',');
      forall i | 0 <= i < |parts|
        ensures Trim(Trim(parts[i])) == Trim(parts[i]) && ',' !in Trim(parts[i])
      {
        TrimIdempotent(parts[i]);
        TrimKeepsOut(parts[i], ',');
      }
    }
  }

  /** Trimmed, comma-free items written with commas read back as
      themselves. */
  lemma SyllabusRoundTrip(items: seq<string>)
    requires |items| >= 1 && Join(items, ",") != ""
    requires forall i :: 0 <= i < |items| ==> ',' !in items[i] && Trim(items[i]) == items[i]
    ensures SyllabusList(Join(items, ",")) == items
  {
    SplitJoin(items, ',');
  }

  /** The sum of the marks of the generated questions. */
  function MarksTotal(qs: seq<Question>): int
  {
    if |qs| == 0 then 0 else MarksTotal(qs[..|qs| - 1]) + qs[|qs| - 1].marks
  }

  /** The body of `POST /api/v1/question-papers`. */
  datatype SaveRequest = SaveRequest(
    title: string, subject: string, duration: Option<int>, description: string,
    syllabus: seq<string>, educationalLevel: string, totalMarks: int, questions: seq<Question>)

  function BuildSaveRequest(d: Details, qs: seq<Question>): SaveRequest
  {
    SaveRequest(d.title, d.subject, d.duration, d.description, SyllabusList(d.syllabus),
                d.educationalLevel, MarksTotal(qs), qs)
  }

  /** The total adds up over any split of the questions. */
  lemma {:induction false} MarksTotalAppend(qs: seq<Question>, more: seq<Question>)
    ensures MarksTotal(qs + more) == MarksTotal(qs) + MarksTotal(more)
    decreases |more|
  {
    if |more| > 0 {
      assert (qs + more)[..|qs + more| - 1] == qs + more[..|more| - 1];
      MarksTotalAppend(qs, more[..|more| - 1]);
    } else {
      assert qs + more == qs;
    }
  }

  /** Questions worth at least one mark each make a paper worth at least
      as many marks as it has questions. */
  lemma {:induction false} MarksTotalAtLeastCount(qs: seq<Question>)
    requires forall i :: 0 <= i < |qs| ==> qs[i].marks >= 1
    ensures MarksTotal(qs) >= |qs|
  {
    if |qs| > 0 {
      MarksTotalAtLeastCount(qs[..|qs| - 1]);
    }
  }

  class CreatePaperPage {
    var questionTypes: seq<Row>
    var formData: Details
    var generatedQuestions: seq<Question>
    var step: int
    var error: string
    var generatingQuestions: bool
    var loading: bool

    constructor ()
      ensures questionTypes == InitialRows && formData == InitialDetails
      ensures generatedQuestions == [] && step == 1 && error == ""
      ensures !generatingQuestions && !loading
    {
      questionTypes := InitialRows;
      formData := InitialDetails;
      generatedQuestions := [];
      step := 1;
      error := "";
      generatingQuestions := false;
      loading := false;
    }

    method AddQuestionType()
      modifies this
      ensures questionTypes == old(questionTypes) + [NewRow]
      ensures formData == old(formData) && generatedQuestions == old(generatedQuestions)
      ensures step == old(step) && error == old(error)
      ensures loading == old(loading) && generatingQuestions == old(generatingQuestions)
    {
      questionTypes := questionTypes + [NewRow];
    }

    method RemoveQuestionType(index: int)
      modifies this
      ensures questionTypes == RemoveAt(old(questionTypes), index)
      ensures formData == old(formData) && generatedQuestions == old(generatedQuestions)
      ensures step == old(step) && error == old(error)
      ensures loading == old(loading) && generatingQuestions == old(generatingQuestions)
    {
      if 0 <= index < |questionTypes| {
        questionTypes := questionTypes[..index] + questionTypes[index + 1..];
      }
    }

    /** `updateQuestionType(index, field, value)`; the controls only edit
        rows that exist. */
    method UpdateQuestionType(index: nat, e: Edit)
      requires index < |questionTypes|
      modifies this
      ensures questionTypes == UpdateAt(old(questionTypes), index, e)
      ensures formData == old(formData) && generatedQuestions == old(generatedQuestions)
      ensures step == old(step) && error == old(error)
      ensures loading == old(loading) && generatingQuestions == old(generatingQuestions)
    {
      var row := questionTypes[index];
      match e {
        case SetType(t) =>
          row := row.(qtype := t);
          row := row.(marks := DefaultMarks(t));
        case SetCount(n) => row := row.(count := n);
        case SetDifficulty(d) => row := row.(difficulty := d);
        case SetMarks(m) => row := row.(marks := m);
      }
      questionTypes := questionTypes[index := row];
    }

    /** The step-one form: `handleSubmit(handleNextStep)` runs
        `handleNextStep` only when the schema accepts the values and the
        distribution. */
    method SubmitDetails(data: Details)
      modifies this
      ensures SchemaAccepts(data, old(questionTypes)) ==>
        formData == data.(model := OrDefault(data.model, DefaultModel)) && step == 2
      ensures !SchemaAccepts(data, old(questionTypes)) ==> formData == old(formData) && step == old(step)
      ensures questionTypes == old(questionTypes) && generatedQuestions == old(generatedQuestions)
      ensures error == old(error)
      ensures loading == old(loading) && generatingQuestions == old(generatingQuestions)
    {
      if SchemaIssues(data, questionTypes) != {} {
        return;
      }
      formData := data.(model := OrDefault(data.model, DefaultModel));
      step := 2;
    }

    /** `generateQuestions`: `o` answers the generation request, whose
        body may lack `data.questions` (`None`), and `errors` is the
        `errors` list of a failed reply. A missing stored token fails
        before any request. Failures end as `GenerateCatchCorrected`. */
    method GenerateQuestions(auth: AuthProvider, o: Response<Option<seq<Question>>>, errors: Option<seq<FieldError>>)
      returns (sent: Option<GenerateRequest>, navigateTo: Option<string>)
      modifies this, auth, auth.browser
      ensures !old(auth.isAuthenticated) ==>
        error == LoginToGenerate && navigateTo == Some("/login") && sent.None?
        && auth.State() == old(auth.State()) && step == old(step)
      ensures old(auth.isAuthenticated) && old(formData.topic) == "" ==>
        error == TopicNeeded && navigateTo.None? && sent.None?
        && auth.State() == old(auth.State()) && step == old(step)
      ensures old(auth.isAuthenticated) && old(formData.topic) != "" ==>
        navigateTo.None?
        && auth.State().session == AfterRefreshAuthHeaders(old(auth.State())).0.session
      ensures old(auth.isAuthenticated) && old(formData.topic) != "" && StoredToken(old(auth.browser.storage)).None? ==>
        var noReply: Response<Option<seq<Question>>> := NoResponse;
        sent.None? && auth.State() == old(auth.State()) && error == GenerateCatchCorrected(noReply, None).error
        && step == old(step)
      ensures old(auth.isAuthenticated) && old(formData.topic) != "" && StoredToken(old(auth.browser.storage)).Some? ==>
        var w := AfterRefreshAuthHeaders(old(auth.State())).0;
        sent == Some(BuildRequest(old(formData), old(questionTypes)))
        && auth.State() == w.(runtime := AfterResponse(w.runtime, o))
      ensures old(auth.isAuthenticated) && old(formData.topic) != "" && StoredToken(old(auth.browser.storage)).Some? ==>
        if o.Ok? && o.body.Some? then
          generatedQuestions == o.body.value && step == 3 && error == ""
        else
          generatedQuestions == old(generatedQuestions) && step == old(step)
          && error == (if o.Ok? then RetryGenerate else GenerateCatchCorrected(o, errors).error)
      ensures old(auth.isAuthenticated) && old(formData.topic) != "" ==> !generatingQuestions
      ensures !(old(auth.isAuthenticated) && old(formData.topic) != "") ==> generatingQuestions == old(generatingQuestions)
      ensures !(old(auth.isAuthenticated) && old(formData.topic) != "" && StoredToken(old(auth.browser.storage)).Some?) ==>
        generatedQuestions == old(generatedQuestions)
      ensures questionTypes == old(questionTypes) && formData == old(formData) && loading == old(loading)
    {
      if !auth.isAuthenticated {
        error := LoginToGenerate;
        return None, Some("/login");
      }
      if formData.topic == "" {
        error := TopicNeeded;
        return None, None;
      }
      generatingQuestions := true;
      error := "";
      var _ := auth.RefreshAuthHeaders();
      navigateTo := None;
      var token := StoredToken(auth.browser.storage);
      if token.None? {
        var noReply: Response<Option<seq<Question>>> := NoResponse;
        error := GenerateFailureMessage(noReply, None);
        generatingQuestions := false;
        return None, None;
      }
      sent := Some(BuildRequest(formData, questionTypes));
      auth.browser.InterceptResponse(o);
      if o.Ok? {
        if o.body.Some? {
          generatedQuestions := o.body.value;
          step := 3;
        } else {
          error := RetryGenerate;
        }
      } else {
        error := GenerateFailureMessage(o, errors);
      }
      generatingQuestions := false;
    }

    /** `saveQuestionPaper`: `o` answers the save request. */
    method SaveQuestionPaper<T>(auth: AuthProvider, o: Response<T>)
      returns (sent: Option<SaveRequest>, navigateTo: Option<string>)
      modifies this, auth.browser
      ensures !auth.isAuthenticated ==>
        error == LoginToSave && navigateTo == Some("/login") && sent.None?
        && auth.browser.State() == old(auth.browser.State())
      ensures auth.isAuthenticated ==>
        sent == Some(BuildSaveRequest(old(formData), old(generatedQuestions)))
        && auth.browser.State() == AfterResponse(old(auth.browser.State()), o)
      ensures auth.isAuthenticated && o.Ok? ==> navigateTo == Some("/question-papers") && error == ""
      ensures auth.isAuthenticated && !o.Ok? ==> navigateTo.None? && error == SaveFailed
      ensures auth.isAuthenticated ==> !loading
      ensures !auth.isAuthenticated ==> loading == old(loading)
      ensures questionTypes == old(questionTypes) && formData == old(formData)
      ensures generatedQuestions == old(generatedQuestions) && step == old(step)
      ensures generatingQuestions == old(generatingQuestions)
    {
      if !auth.isAuthenticated {
        error := LoginToSave;
        return None, Some("/login");
      }
      loading := true;
      error := "";
      sent := Some(BuildSaveRequest(formData, generatedQuestions));
      auth.browser.InterceptResponse(o);
      if o.Ok? {
        navigateTo := Some("/question-papers");
      } else {
        error := SaveFailed;
        navigateTo := None;
      }
      loading := false;
    }
  }
}
