/**
 * Question papers as the client receives them (client/src/types/index.js),
 * and the list computations the dashboard and list pages share.
 */
module Papers {
  import opened Common

  /** A question; `""` stands for a missing string field. */
  datatype Question = Question(qtype: string, difficulty: string, marks: int, topic: string)

  /** A question paper. A missing `questions` list is empty; `cls` is the
      optional `class`; `attempts` is the length of the `attempts` list and
      `exports` the export counter, both 0 when missing. */
  datatype Paper = Paper(id: string, title: string, subject: string, cls: Option<string>,
                         questions: seq<Question>, attempts: nat, exports: int)

  /** The questions of all papers, paper after paper. */
  function AllQuestions(papers: seq<Paper>): seq<Question>
  {
    if |papers| == 0 then [] else AllQuestions(papers[..|papers| - 1]) + papers[|papers| - 1].questions
  }

  /** `papers.reduce((sum, p) => sum + (p.questions ? p.questions.length : 0), 0)`. */
  function QuestionCount(papers: seq<Paper>): nat
  {
    if |papers| == 0 then 0 else QuestionCount(papers[..|papers| - 1]) + |papers[|papers| - 1].questions|
  }

  /** The total counts exactly the questions of all papers. */
  lemma {:induction false} QuestionCountIsAllQuestions(papers: seq<Paper>)
    ensures QuestionCount(papers) == |AllQuestions(papers)|
  {
    if |papers| > 0 {
      QuestionCountIsAllQuestions(papers[..|papers| - 1]);
    }
  }

  /** The total is additive over blocks of papers. */
  lemma {:induction false} QuestionCountAppend(a: seq<Paper>, b: seq<Paper>)
    ensures QuestionCount(a + b) == QuestionCount(a) + QuestionCount(b)
    decreases |b|
  {
    if |b| > 0 {
      assert (a + b)[..|a + b| - 1] == a + b[..|b| - 1];
      QuestionCountAppend(a, b[..|b| - 1]);
    } else {
      assert a + b == a;
    }
  }

  /** `xs` holds no value twice. */
  predicate NoRepeats(xs: seq<string>)
  {
    forall i, j :: 0 <= i < j < |xs| ==> xs[i] != xs[j]
  }

  /** The index where `x` first occurs in `xs`. */
  function FirstIndex(xs: seq<string>, x: string): (k: nat)
    requires x in xs
    ensures k < |xs| && xs[k] == x
    ensures forall m :: 0 <= m < k ==> xs[m] != x
  {
    if xs[0] == x then 0 else 1 + FirstIndex(xs[1..], x)
  }

  /** `[...new Set(xs)]`: the values of `xs` without repeats. */
  function Distinct(xs: seq<string>): (r: seq<string>)
    ensures NoRepeats(r)
    ensures forall x :: x in r <==> x in xs
  {
    if |xs| == 0 then []
    else
      var d := Distinct(xs[..|xs| - 1]);
      var x := xs[|xs| - 1];
      assert xs == xs[..|xs| - 1] + [x];
      if x in d then d else d + [x]
  }

  /** A set iterates in insertion order: the values come in the order of
      their first occurrence. */
  lemma {:induction false} DistinctInFirstOrder(xs: seq<string>)
    ensures forall i, j :: 0 <= i < j < |Distinct(xs)| ==>
      FirstIndex(xs, Distinct(xs)[i]) < FirstIndex(xs, Distinct(xs)[j])
  {
    if |xs| > 0 {
      var init := xs[..|xs| - 1];
      var x := xs[|xs| - 1];
      var d := Distinct(init);
      var dd := Distinct(xs);
      DistinctInFirstOrder(init);
      assert xs == init + [x];
      assert dd == if x in d then d else d + [x];
      forall i, j | 0 <= i < j < |dd|
        ensures FirstIndex(xs, dd[i]) < FirstIndex(xs, dd[j])
      {
        assert dd[i] == d[i] && d[i] in init;
        FirstIndexExtend(init, x, d[i]);
        if j < |d| {
          assert dd[j] == d[j] && d[j] in init;
          FirstIndexExtend(init, x, d[j]);
        } else {
          assert dd[j] == x && x !in init;
          var k := FirstIndex(xs, x);
          assert k == |init|;
        }
      }
    }
  }

  lemma FirstIndexExtend(xs: seq<string>, x: string, y: string)
    requires y in xs
    ensures y in xs + [x] && FirstIndex(xs + [x], y) == FirstIndex(xs, y)
  {
    var k := FirstIndex(xs, y);
    var k' := FirstIndex(xs + [x], y);
    assert (xs + [x])[k] == y;
  }

  /** `papers.map(p => p.subject)`. */
  function SubjectList(papers: seq<Paper>): (r: seq<string>)
    ensures |r| == |papers| && forall i :: 0 <= i < |r| ==> r[i] == papers[i].subject
  {
    seq(|papers|, i requires 0 <= i < |papers| => papers[i].subject)
  }

  function Truthy(s: string): bool
  {
    s != ""
  }

  /** `[...new Set(papers.map(p => p.subject).filter(Boolean))]`. */
  function Subjects(papers: seq<Paper>): seq<string>
  {
    Distinct(Filter(SubjectList(papers), Truthy))
  }

  /** The subject list holds each truthy subject of the papers once, and
      nothing else. */
  lemma SubjectsSpec(papers: seq<Paper>)
    ensures NoRepeats(Subjects(papers))
    ensures forall s :: s in Subjects(papers) <==> s != "" && exists i :: 0 <= i < |papers| && papers[i].subject == s
  {
    var names := SubjectList(papers);
    var kept := Filter(names, Truthy);
    forall s
      ensures s in kept <==> s != "" && exists i :: 0 <= i < |papers| && papers[i].subject == s
    {
      if s in kept {
        var k :| 0 <= k < |kept| && kept[k] == s;
        var i :| 0 <= i < |names| && names[i] == s;
      }
      if s != "" && exists i :: 0 <= i < |papers| && papers[i].subject == s {
        var i :| 0 <= i < |papers| && papers[i].subject == s;
        assert names[i] == s;
      }
    }
  }
}
