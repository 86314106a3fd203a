/**
 * The overview dashboard (client/src/pages/Dashboard.jsx): where the paper
 * list is found in the reply body, the counts shown on the cards, and the
 * fetch that runs only for an authenticated session.
 */
module Overview {
  import opened Common
  import opened Api
  import opened Papers

  /** A reply body as far as the extraction looks at it: a falsy value
      (`null`, `undefined`, `0`, `""`, `false`), another scalar, an array of
      papers, or an object with its properties in order. */
  datatype Json =
    | Falsy
    | Scalar
    | Arr(items: seq<Paper>)
    | Obj(fields: seq<(string, Json)>)

  predicate Truthy(j: Json)
  {
    !j.Falsy?
  }

  /** The value of property `k` among `fields`; `undefined` when absent. */
  function Lookup(fields: seq<(string, Json)>, k: string): (v: Json)
    ensures v.Falsy? || exists i :: 0 <= i < |fields| && fields[i] == (k, v)
  {
    if |fields| == 0 then Falsy
    else if fields[0].0 == k then fields[0].1
    else
      var v := Lookup(fields[1..], k);
      assert v.Falsy? || exists i :: 0 <= i < |fields[1..]| && fields[1..][i] == (k, v);
      v
  }

  /** `j[k]`: only an object has named properties. */
  function Member(j: Json, k: string): Json
  {
    if j.Obj? then Lookup(j.fields, k) else Falsy
  }

  /** Property `i` holds the array `ps` and no earlier property holds an
      array. */
  predicate FirstArrayAt(fields: seq<(string, Json)>, i: int, ps: seq<Paper>)
  {
    0 <= i < |fields| && fields[i].1 == Arr(ps) && forall k :: 0 <= k < i ==> !fields[k].1.Arr?
  }

  /** The first array among the property values, in property order. */
  function FirstArray(fields: seq<(string, Json)>): (r: Option<seq<Paper>>)
    ensures r.Some? <==> exists i :: 0 <= i < |fields| && fields[i].1.Arr?
    ensures r.Some? ==> exists i :: FirstArrayAt(fields, i, r.value)
  {
    if |fields| == 0 then None
    else if fields[0].1.Arr? then
      assert FirstArrayAt(fields, 0, fields[0].1.items);
      Some(fields[0].1.items)
    else
      var r := FirstArray(fields[1..]);
      if r.Some? then
        var i :| FirstArrayAt(fields[1..], i, r.value);
        assert FirstArrayAt(fields, i + 1, r.value);
        r
      else
        r
  }

  /** The value chosen as the paper list before the array check: the
      `questionPapers` property, then `data.questionPapers`, then the body
      itself when it is an array, then the first array-valued property. */
  function Candidate(j: Json): Json
    requires Truthy(j)
  {
    var nested := Member(Member(j, "data"), "questionPapers");
    if Truthy(Member(j, "questionPapers")) then Member(j, "questionPapers")
    else if Truthy(Member(j, "data")) && Truthy(nested) then nested
    else if j.Arr? then j
    else if j.Obj? && FirstArray(j.fields).Some? then Arr(FirstArray(j.fields).value)
    else Arr([])
  }

  /** What `parseQuestionPapers` returns. */
  datatype Parsed = Parsed(papers: seq<Paper>, count: nat, subjects: seq<string>)

  /** The paper list found in the body: `[]` for a falsy body or when the
      candidate is not an array. */
  function ExtractPapers(j: Json): seq<Paper>
  {
    if !Truthy(j) then [] else match Candidate(j)
      case Arr(ps) => ps
      case _ => []
  }

  function ParseQuestionPapers(j: Json): (r: Parsed)
    ensures r.papers == ExtractPapers(j)
    ensures r.count == |r.papers|
  {
    var papers := ExtractPapers(j);
    Parsed(papers, |papers|, Subjects(papers))
  }

  /** A falsy body yields nothing; the count is the number of papers; the
      subjects are the distinct truthy subjects of the papers. */
  lemma ParsedShape(j: Json)
    ensures !Truthy(j) ==> ParseQuestionPapers(j) == Parsed([], 0, [])
    ensures var r := ParseQuestionPapers(j);
      r.count == |r.papers| && NoRepeats(r.subjects)
      && forall s :: s in r.subjects <==>
           s != "" && exists i :: 0 <= i < |r.papers| && r.papers[i].subject == s
  {
    SubjectsSpec(ParseQuestionPapers(j).papers);
    if !Truthy(j) {
      assert Subjects([]) == [];
    }
  }

  /** The extraction order: a truthy `questionPapers` wins over everything
      else and is used only if it is an array; `data.questionPapers` comes
      next, then the body as an array, then its first array property. */
  lemma ExtractionPriority(j: Json, ps: seq<Paper>)
    ensures Member(j, "questionPapers") == Arr(ps) ==> ExtractPapers(j) == ps
    ensures Truthy(Member(j, "questionPapers")) && !Member(j, "questionPapers").Arr? ==>
      ExtractPapers(j) == []
    ensures (!Truthy(Member(j, "questionPapers")) && Truthy(Member(j, "data"))
             && Member(Member(j, "data"), "questionPapers") == Arr(ps)) ==>
      ExtractPapers(j) == ps
    ensures j == Arr(ps) ==> ExtractPapers(j) == ps
    ensures (j.Obj? && !Truthy(Member(j, "questionPapers"))
             && !(Truthy(Member(j, "data")) && Truthy(Member(Member(j, "data"), "questionPapers")))) ==>
      ExtractPapers(j) == (if FirstArray(j.fields).Some? then FirstArray(j.fields).value else [])
    ensures j == Scalar ==> ExtractPapers(j) == []
  {
  }

  /** The papers found are empty or are an array present in the body: one
      of the two named places, the body itself, or a top-level property. */
  lemma PapersComeFromBody(j: Json)
    ensures var ps := ExtractPapers(j);
      ps == [] || Member(j, "questionPapers") == Arr(ps)
      || Member(Member(j, "data"), "questionPapers") == Arr(ps) || j == Arr(ps)
      || (j.Obj? && exists i :: 0 <= i < |j.fields| && j.fields[i].1 == Arr(ps))
  {
  }

  /** Every shape the page accepts gives the same list: a bare array, the
      array as the only property under any name (`questionPapers` or
      another), and the array under `data.questionPapers`. */
  lemma ShapesAgree(ps: seq<Paper>, k: string)
    ensures ExtractPapers(Arr(ps)) == ps
    ensures ExtractPapers(Obj([(k, Arr(ps))])) == ps
    ensures ExtractPapers(Obj([("data", Obj([("questionPapers", Arr(ps))]))])) == ps
  {
    SingleProperty(ps, k);
    var inner := Obj([("questionPapers", Arr(ps))]);
    var wrapped := Obj([("data", inner)]);
    assert Lookup(wrapped.fields, "questionPapers") == Lookup(wrapped.fields[1..], "questionPapers");
    assert Member(wrapped, "data") == inner;
    assert Member(inner, "questionPapers") == Arr(ps);
  }

  lemma SingleProperty(ps: seq<Paper>, k: string)
    ensures ExtractPapers(Obj([(k, Arr(ps))])) == ps
  {
    var single := Obj([(k, Arr(ps))]);
    if k != "questionPapers" {
      assert Lookup(single.fields, "questionPapers") == Lookup(single.fields[1..], "questionPapers");
      assert FirstArray(single.fields) == Some(ps);
    }
  }

  /** The cards and list of the page. */
  class OverviewPage {
    var loading: bool
    var count: nat
    var totalQuestions: nat
    var recentPapers: seq<Paper>
    var subjects: seq<string>

    constructor ()
      ensures loading && count == 0 && totalQuestions == 0
      ensures recentPapers == [] && subjects == []
    {
      loading := true;
      count := 0;
      totalQuestions := 0;
      recentPapers := [];
      subjects := [];
    }

    /** The effect on `isAuthenticated`: an unauthenticated session makes
        no request and only stops loading; otherwise `o` is the answer to
        `GET /api/v1/question-papers`, a reply fills the cards from the
        parsed body, and a failure leaves them as they were. Loading always
        ends. */
    method FetchDashboardData(isAuthenticated: bool, b: Browser, o: Response<Json>)
      modifies this, b
      ensures !loading
      ensures !isAuthenticated ==> b.State() == old(b.State())
      ensures isAuthenticated ==> b.State() == AfterResponse(old(b.State()), o)
      ensures isAuthenticated && o.Ok? ==>
        var r := ParseQuestionPapers(o.body);
        count == r.count && recentPapers == r.papers && subjects == r.subjects
        && totalQuestions == QuestionCount(r.papers)
      ensures !(isAuthenticated && o.Ok?) ==>
        count == old(count) && recentPapers == old(recentPapers) && subjects == old(subjects)
        && totalQuestions == old(totalQuestions)
    {
      if !isAuthenticated {
        loading := false;
        return;
      }
      loading := true;
      b.InterceptResponse(o);
      if o.Ok? {
        var r := ParseQuestionPapers(o.body);
        count := r.count;
        totalQuestions := QuestionCount(r.papers);
        recentPapers := r.papers;
        subjects := r.subjects;
      }
      loading := false;
    }
  }
}
