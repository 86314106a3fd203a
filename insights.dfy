/**
 * The insights panel of the dashboard
 * (client/src/components/Dashboard/QuestionPaperInsights.jsx): difficulty,
 * type and topic tallies over the papers that have questions.
 */
module Insights {
  import opened Common
  import opened Papers

  const DefaultMaxLength: nat := 15
  const Ellipsis: string := "..."

  /** `truncateText(text, maxLength)`. */
  function TruncateText(text: string, maxLength: nat): (r: string)
    ensures |r| <= maxLength + |Ellipsis|
    ensures |text| <= maxLength ==> r == text
    ensures |text| > maxLength ==>
      |r| == maxLength + |Ellipsis| && r[..maxLength] == text[..maxLength] && r[maxLength..] == Ellipsis
  {
    if text == "" then ""
    else if |text| > maxLength then text[..maxLength] + Ellipsis
    else text
  }

  predicate HasQuestions(p: Paper)
  {
    |p.questions| > 0
  }

  /** `papers.filter(p => p.questions && p.questions.length > 0)`. */
  function ValidPapers(papers: seq<Paper>): seq<Paper>
  {
    Filter(papers, HasQuestions)
  }

  lemma {:induction false} AllQuestionsAppend(a: seq<Paper>, b: seq<Paper>)
    ensures AllQuestions(a + b) == AllQuestions(a) + AllQuestions(b)
    decreases |b|
  {
    if |b| > 0 {
      assert (a + b)[..|a + b| - 1] == a + b[..|b| - 1];
      AllQuestionsAppend(a, b[..|b| - 1]);
    } else {
      assert a + b == a;
    }
  }

  /** Dropping the papers without questions drops no question. */
  lemma {:induction false} ValidPapersKeepQuestions(papers: seq<Paper>)
    ensures AllQuestions(ValidPapers(papers)) == AllQuestions(papers)
  {
    if |papers| > 0 {
      var init := papers[..|papers| - 1];
      var last := papers[|papers| - 1];
      ValidPapersKeepQuestions(init);
      assert AllQuestions(papers) == AllQuestions(init) + last.questions;
      if HasQuestions(last) {
        assert ValidPapers(papers) == ValidPapers(init) + [last];
        AllQuestionsAppend(ValidPapers(init), [last]);
        assert AllQuestions([last]) == AllQuestions([]) + last.questions;
      } else {
        assert ValidPapers(papers) == ValidPapers(init);
        assert last.questions == [];
        assert AllQuestions(init) + last.questions == AllQuestions(init);
      }
    }
  }

  /** The placeholder shows exactly when no paper has a question. */
  lemma PlaceholderIff(papers: seq<Paper>)
    ensures |ValidPapers(papers)| == 0 <==> forall i :: 0 <= i < |papers| ==> |papers[i].questions| == 0
  {
    if |ValidPapers(papers)| > 0 {
      var v := ValidPapers(papers)[0];
      assert v in papers && HasQuestions(v);
      var i :| 0 <= i < |papers| && papers[i] == v;
    }
  }

  /** The questions up to and including paper `i`. */
  lemma AllQuestionsSnoc(papers: seq<Paper>, i: nat)
    requires i < |papers|
    ensures AllQuestions(papers[..i + 1]) == AllQuestions(papers[..i]) + papers[i].questions
  {
    assert papers[..i + 1][..i] == papers[..i];
  }

  /** Question `q` counts toward difficulty `level` (`easy`, `medium` or
      `hard`), compared in lower case. */
  function DifficultyIs(level: string): Question -> bool
  {
    (q: Question) => q.difficulty != "" && Lower(q.difficulty) == level
  }

  /** Question `q` is of the listed type `t` (`mcq`, `short` or `long`). */
  function TypeIs(t: string): Question -> bool
  {
    (q: Question) => q.qtype != "" && Lower(q.qtype) == t
  }

  /** Question `q` falls into the `other` type bucket. */
  function OtherType(q: Question): bool
  {
    !(q.qtype != "" && Lower(q.qtype) in ["mcq", "short", "long"])
  }

  /** The difficulty chart: the three counts, each question of the given
      papers counted under its lower-cased difficulty. */
  method DifficultyCounts(valid: seq<Paper>) returns (easy: nat, medium: nat, hard: nat)
    ensures easy == Count(AllQuestions(valid), DifficultyIs("easy"))
    ensures medium == Count(AllQuestions(valid), DifficultyIs("medium"))
    ensures hard == Count(AllQuestions(valid), DifficultyIs("hard"))
  {
    easy, medium, hard := 0, 0, 0;
    var i := 0;
    while i < |valid|
      invariant 0 <= i <= |valid|
      invariant easy == Count(AllQuestions(valid[..i]), DifficultyIs("easy"))
      invariant medium == Count(AllQuestions(valid[..i]), DifficultyIs("medium"))
      invariant hard == Count(AllQuestions(valid[..i]), DifficultyIs("hard"))
    {
      var qs := valid[i].questions;
      ghost var e0, m0, h0 := easy, medium, hard;
      var j := 0;
      while j < |qs|
        invariant 0 <= j <= |qs|
        invariant easy == e0 + Count(qs[..j], DifficultyIs("easy"))
        invariant medium == m0 + Count(qs[..j], DifficultyIs("medium"))
        invariant hard == h0 + Count(qs[..j], DifficultyIs("hard"))
      {
        var q := qs[j];
        CountPrefix(qs, j, DifficultyIs("easy"));
        CountPrefix(qs, j, DifficultyIs("medium"));
        CountPrefix(qs, j, DifficultyIs("hard"));
        if q.difficulty != "" {
          var level := Lower(q.difficulty);
          if level == "easy" {
            easy := easy + 1;
          } else if level == "medium" {
            medium := medium + 1;
          } else if level == "hard" {
            hard := hard + 1;
          }
        }
        j := j + 1;
      }
      assert qs[..j] == qs;
      AllQuestionsSnoc(valid, i);
      CountAppend(AllQuestions(valid[..i]), qs, DifficultyIs("easy"));
      CountAppend(AllQuestions(valid[..i]), qs, DifficultyIs("medium"));
      CountAppend(AllQuestions(valid[..i]), qs, DifficultyIs("hard"));
      i := i + 1;
    }
    assert valid[..i] == valid;
  }

  /** Each question lands in exactly the bucket its lower-cased type
      names, and in `other` when it has no type or another one. */
  lemma TypeBucketCases(q: Question)
    ensures q.qtype == "" ==>
      !TypeIs("mcq")(q) && !TypeIs("short")(q) && !TypeIs("long")(q) && OtherType(q)
    ensures q.qtype != "" && Lower(q.qtype) == "mcq" ==>
      TypeIs("mcq")(q) && !TypeIs("short")(q) && !TypeIs("long")(q) && !OtherType(q)
    ensures q.qtype != "" && Lower(q.qtype) == "short" ==>
      !TypeIs("mcq")(q) && TypeIs("short")(q) && !TypeIs("long")(q) && !OtherType(q)
    ensures q.qtype != "" && Lower(q.qtype) == "long" ==>
      !TypeIs("mcq")(q) && !TypeIs("short")(q) && TypeIs("long")(q) && !OtherType(q)
    ensures q.qtype != "" && !(Lower(q.qtype) in ["mcq", "short", "long"]) ==>
      !TypeIs("mcq")(q) && !TypeIs("short")(q) && !TypeIs("long")(q) && OtherType(q)
  {
  }

  /** The type chart: mcq, short, long and other, each question counted
      once under its lower-cased type. */
  method TypeCounts(valid: seq<Paper>) returns (mcq: nat, short: nat, long: nat, other: nat)
    ensures mcq == Count(AllQuestions(valid), TypeIs("mcq"))
    ensures short == Count(AllQuestions(valid), TypeIs("short"))
    ensures long == Count(AllQuestions(valid), TypeIs("long"))
    ensures other == Count(AllQuestions(valid), OtherType)
  {
    mcq, short, long, other := 0, 0, 0, 0;
    var i := 0;
    while i < |valid|
      invariant 0 <= i <= |valid|
      invariant mcq == Count(AllQuestions(valid[..i]), TypeIs("mcq"))
      invariant short == Count(AllQuestions(valid[..i]), TypeIs("short"))
      invariant long == Count(AllQuestions(valid[..i]), TypeIs("long"))
      invariant other == Count(AllQuestions(valid[..i]), OtherType)
    {
      var qs := valid[i].questions;
      ghost var m0, s0, l0, o0 := mcq, short, long, other;
      var j := 0;
      while j < |qs|
        invariant 0 <= j <= |qs|
        invariant mcq == m0 + Count(qs[..j], TypeIs("mcq"))
        invariant short == s0 + Count(qs[..j], TypeIs("short"))
        invariant long == l0 + Count(qs[..j], TypeIs("long"))
        invariant other == o0 + Count(qs[..j], OtherType)
      {
        var q := qs[j];
        CountPrefix(qs, j, TypeIs("mcq"));
        CountPrefix(qs, j, TypeIs("short"));
        CountPrefix(qs, j, TypeIs("long"));
        CountPrefix(qs, j, OtherType);
        TypeBucketCases(q);
        if q.qtype != "" {
          var t := Lower(q.qtype);
          if t == "mcq" {
            mcq := mcq + 1;
          } else if t == "short" {
            short := short + 1;
          } else if t == "long" {
            long := long + 1;
          } else {
            other := other + 1;
          }
        } else {
          other := other + 1;
        }
        j := j + 1;
      }
      assert qs[..j] == qs;
      AllQuestionsSnoc(valid, i);
      CountAppend(AllQuestions(valid[..i]), qs, TypeIs("mcq"));
      CountAppend(AllQuestions(valid[..i]), qs, TypeIs("short"));
      CountAppend(AllQuestions(valid[..i]), qs, TypeIs("long"));
      CountAppend(AllQuestions(valid[..i]), qs, OtherType);
      i := i + 1;
    }
    assert valid[..i] == valid;
  }

  /** The four type buckets split the questions: they add up to the number
      of questions. */
  lemma {:induction false} TypeBucketsPartition(qs: seq<Question>)
    ensures Count(qs, TypeIs("mcq")) + Count(qs, TypeIs("short")) + Count(qs, TypeIs("long"))
      + Count(qs, OtherType) == |qs|
  {
    if |qs| > 0 {
      TypeBucketsPartition(qs[..|qs| - 1]);
    }
  }

  /** Over the papers of the panel, the type chart accounts for every
      question, the same total the dashboard reports. */
  lemma TypeChartTotal(papers: seq<Paper>)
    ensures var qs := AllQuestions(ValidPapers(papers));
      Count(qs, TypeIs("mcq")) + Count(qs, TypeIs("short")) + Count(qs, TypeIs("long"))
      + Count(qs, OtherType) == QuestionCount(papers)
  {
    ValidPapersKeepQuestions(papers);
    QuestionCountIsAllQuestions(papers);
    TypeBucketsPartition(AllQuestions(papers));
  }

  /** The difficulty chart never shows more than the questions there are. */
  lemma {:induction false} DifficultyWithinTotal(qs: seq<Question>)
    ensures Count(qs, DifficultyIs("easy")) + Count(qs, DifficultyIs("medium"))
      + Count(qs, DifficultyIs("hard")) <= |qs|
  {
    if |qs| > 0 {
      DifficultyWithinTotal(qs[..|qs| - 1]);
    }
  }

  /** A `Map` from topic to count, in insertion order. */
  type Tally = seq<(string, nat)>

  function TallyKeys(m: Tally): (ks: seq<string>)
    ensures |ks| == |m| && forall i :: 0 <= i < |m| ==> ks[i] == m[i].0
  {
    seq(|m|, i requires 0 <= i < |m| => m[i].0)
  }

  /** `m.get(k) || 0`. */
  function TallyGet(m: Tally, k: string): nat
  {
    if |m| == 0 then 0 else if m[0].0 == k then m[0].1 else TallyGet(m[1..], k)
  }

  /** `m.set(k, (m.get(k) || 0) + 1)`: an existing key keeps its place. */
  function Increment(m: Tally, k: string): (r: Tally)
    ensures |r| == |m| || (|r| == |m| + 1 && r[|m|] == (k, 1))
    ensures forall i :: 0 <= i < |m| ==> r[i].0 == m[i].0
    ensures k in TallyKeys(r)
  {
    if |m| == 0 then [(k, 1)]
    else if m[0].0 == k then [(k, m[0].1 + 1)] + m[1..]
    else [m[0]] + Increment(m[1..], k)
  }

  /** Question `q` counts toward topic `k`: its topic is truthy and `k` is
      that topic trimmed. */
  function TopicIs(k: string): Question -> bool
  {
    (q: Question) => q.topic != "" && Trim(q.topic) == k
  }

  /** The topic map after the questions `qs`, in order. */
  function TopicTally(qs: seq<Question>): Tally
  {
    if |qs| == 0 then []
    else
      var m := TopicTally(qs[..|qs| - 1]);
      var q := qs[|qs| - 1];
      if q.topic != "" then Increment(m, Trim(q.topic)) else m
  }

  /** One more question updates the tally by that question alone. */
  lemma TopicTallyAppend(xs: seq<Question>, q: Question)
    ensures TopicTally(xs + [q])
      == if q.topic != "" then Increment(TopicTally(xs), Trim(q.topic)) else TopicTally(xs)
  {
    assert (xs + [q])[..|xs + [q]| - 1] == xs;
  }

  lemma TopicTallySnoc(done: seq<Question>, qs: seq<Question>, j: nat)
    requires j < |qs|
    ensures TopicTally(done + qs[..j + 1])
      == if qs[j].topic != "" then Increment(TopicTally(done + qs[..j]), Trim(qs[j].topic))
         else TopicTally(done + qs[..j])
  {
    assert done + qs[..j + 1] == (done + qs[..j]) + [qs[j]];
    TopicTallyAppend(done + qs[..j], qs[j]);
  }

  lemma {:induction false} IncrementGet(m: Tally, k: string, k': string)
    ensures TallyGet(Increment(m, k), k') == TallyGet(m, k') + (if k' == k then 1 else 0)
  {
    if |m| > 0 && m[0].0 != k {
      IncrementGet(m[1..], k, k');
      assert Increment(m, k)[1..] == Increment(m[1..], k);
    }
    if |m| > 0 && m[0].0 == k {
      assert Increment(m, k)[1..] == m[1..];
    }
  }

  /** Each topic's count is the number of questions filed under it. */
  lemma {:induction false} TopicTallyCounts(qs: seq<Question>, k: string)
    ensures TallyGet(TopicTally(qs), k) == Count(qs, TopicIs(k))
  {
    if |qs| > 0 {
      var q := qs[|qs| - 1];
      TopicTallyCounts(qs[..|qs| - 1], k);
      if q.topic != "" {
        IncrementGet(TopicTally(qs[..|qs| - 1]), Trim(q.topic), k);
      }
    }
  }

  /** The map holds no topic twice. */
  lemma {:induction false} TopicTallyDistinct(qs: seq<Question>)
    ensures NoRepeats(TallyKeys(TopicTally(qs)))
  {
    if |qs| > 0 {
      var m := TopicTally(qs[..|qs| - 1]);
      var q := qs[|qs| - 1];
      TopicTallyDistinct(qs[..|qs| - 1]);
      if q.topic != "" {
        IncrementDistinct(m, Trim(q.topic));
      }
    }
  }

  /** An increment adds an entry exactly for a new key. */
  lemma {:induction false} IncrementLength(m: Tally, k: string)
    ensures |Increment(m, k)| == if k in TallyKeys(m) then |m| else |m| + 1
  {
    if |m| > 0 && m[0].0 != k {
      IncrementLength(m[1..], k);
      assert TallyKeys(m) == [m[0].0] + TallyKeys(m[1..]);
    }
  }

  /** An increment keeps the key list, or appends the new key. */
  lemma IncrementKeys(m: Tally, k: string)
    ensures k in TallyKeys(m) ==> TallyKeys(Increment(m, k)) == TallyKeys(m)
    ensures k !in TallyKeys(m) ==> TallyKeys(Increment(m, k)) == TallyKeys(m) + [k]
  {
    IncrementLength(m, k);
    var r := Increment(m, k);
    var ks := TallyKeys(m);
    var e := if k in ks then ks else ks + [k];
    forall i | 0 <= i < |e|
      ensures TallyKeys(r)[i] == e[i]
    {
      if i == |m| {
        assert r[|m|] == (k, 1);
      }
    }
    assert TallyKeys(r) == e;
  }

  lemma IncrementDistinct(m: Tally, k: string)
    requires NoRepeats(TallyKeys(m))
    ensures NoRepeats(TallyKeys(Increment(m, k)))
  {
    IncrementKeys(m, k);
    var ks := TallyKeys(m);
    if k !in ks {
      var ks' := ks + [k];
      forall i, j | 0 <= i < j < |ks'|
        ensures ks'[i] != ks'[j]
      {
        if j == |ks| {
          assert ks'[i] == ks[i];
        }
      }
    }
  }

  /** The topic tally the component builds with its two nested loops. */
  method TallyTopics(valid: seq<Paper>) returns (topicMap: Tally)
    ensures topicMap == TopicTally(AllQuestions(valid))
  {
    topicMap := [];
    var i := 0;
    while i < |valid|
      invariant 0 <= i <= |valid|
      invariant topicMap == TopicTally(AllQuestions(valid[..i]))
    {
      ghost var done := AllQuestions(valid[..i]);
      var qs := valid[i].questions;
      var j := 0;
      assert done + qs[..0] == done;
      while j < |qs|
        invariant 0 <= j <= |qs|
        invariant topicMap == TopicTally(done + qs[..j])
      {
        var q := qs[j];
        if q.topic != "" {
          var topic := Trim(q.topic);
          topicMap := Increment(topicMap, topic);
        }
        TopicTallySnoc(done, qs, j);
        j := j + 1;
      }
      assert qs[..j] == qs;
      AllQuestionsSnoc(valid, i);
      i := i + 1;
    }
    assert valid[..i] == valid;
  }

  /** Counts never increase from left to right. */
  predicate NonIncreasing(m: Tally)
  {
    forall i, j :: 0 <= i < j < |m| ==> m[i].1 >= m[j].1
  }

  /** An entry counting at least as much as the head keeps a list
      ordered when put in front of it. */
  lemma ConsNonIncreasing(e: (string, nat), rest: Tally)
    requires NonIncreasing(rest)
    requires |rest| > 0 ==> e.1 >= rest[0].1
    ensures NonIncreasing([e] + rest)
  {
    var r := [e] + rest;
    forall i, j | 0 <= i < j < |r|
      ensures r[i].1 >= r[j].1
    {
      if i == 0 {
        assert r[j] == rest[j - 1];
        assert rest[0].1 >= rest[j - 1].1 || j == 1;
      } else {
        assert r[i] == rest[i - 1] && r[j] == rest[j - 1];
      }
    }
  }

  /** Dropping the head of an ordered list keeps it ordered. */
  lemma TailNonIncreasing(m: Tally)
    requires |m| > 0 && NonIncreasing(m)
    ensures NonIncreasing(m[1..])
  {
    forall i, j | 0 <= i < j < |m[1..]|
      ensures m[1..][i].1 >= m[1..][j].1
    {
      assert m[1..][i] == m[i + 1] && m[1..][j] == m[j + 1];
    }
  }

  /** Putting the head back in front of the tail with `x` inserted keeps
      the order and adds `x` to the entries. */
  lemma InsertBehindHead(x: (string, nat), m: Tally, rest: Tally)
    requires |m| > 0 && NonIncreasing(m) && m[0].1 >= x.1
    requires NonIncreasing(rest)
    requires |rest| > 0 ==> rest[0] == x || (|m| > 1 && rest[0] == m[1])
    requires multiset(rest) == multiset(m[1..]) + multiset{x}
    ensures NonIncreasing([m[0]] + rest)
    ensures multiset([m[0]] + rest) == multiset(m) + multiset{x}
  {
    ConsNonIncreasing(m[0], rest);
    assert m == [m[0]] + m[1..];
  }

  /** Places `x` after every entry whose count is at least its own. */
  function Insert(x: (string, nat), m: Tally): (r: Tally)
    requires NonIncreasing(m)
    ensures |r| == |m| + 1
    ensures r[0] == x || (|m| > 0 && r[0] == m[0])
    ensures NonIncreasing(r)
    ensures multiset(r) == multiset(m) + multiset{x}
  {
    if |m| == 0 then [x]
    else if m[0].1 >= x.1 then
      TailNonIncreasing(m);
      var rest := Insert(x, m[1..]);
      InsertBehindHead(x, m, rest);
      [m[0]] + rest
    else
      ConsNonIncreasing(x, m);
      [x] + m
  }

  /** `entries.sort((a, b) => b[1] - a[1])`: a stable sort by decreasing
      count, equal counts keeping map order. */
  function SortByCount(m: Tally): (r: Tally)
    ensures NonIncreasing(r)
    ensures multiset(r) == multiset(m)
  {
    if |m| == 0 then []
    else
      assert m == m[..|m| - 1] + [m[|m| - 1]];
      Insert(m[|m| - 1], SortByCount(m[..|m| - 1]))
  }

  const TopCount: nat := 5

  function Min(a: int, b: int): int
  {
    if a < b then a else b
  }

  /** `.slice(0, 5)` of the sorted entries. */
  function TopTopics(m: Tally): Tally
  {
    var sorted := SortByCount(m);
    sorted[..Min(TopCount, |sorted|)]
  }

  /** The ranking keeps at most five topics with non-increasing counts,
      each from the map, and a topic left out counts no more than the last
      one kept. */
  lemma TopTopicsSpec(m: Tally)
    ensures |TopTopics(m)| <= TopCount
    ensures |TopTopics(m)| == Min(TopCount, |m|)
    ensures NonIncreasing(TopTopics(m))
    ensures forall e :: e in TopTopics(m) ==> e in m
    ensures forall i :: 0 <= i < |m| && m[i] !in TopTopics(m) ==>
      |TopTopics(m)| == TopCount && m[i].1 <= TopTopics(m)[TopCount - 1].1
  {
    var sorted := SortByCount(m);
    assert |sorted| == |m| by {
      assert |multiset(sorted)| == |multiset(m)|;
    }
    var top := TopTopics(m);
    forall e | e in top
      ensures e in m
    {
      assert e in multiset(sorted);
    }
    forall i | 0 <= i < |m| && m[i] !in top
      ensures |top| == TopCount && m[i].1 <= top[TopCount - 1].1
    {
      assert m[i] in multiset(sorted);
      var k :| 0 <= k < |sorted| && sorted[k] == m[i];
      assert k >= TopCount;
    }
  }

  /** What the topic chart shows: truncated labels, the full labels for
      the tooltips, and the counts, all in ranking order. */
  datatype TopicChart = TopicChart(labels: seq<string>, originalLabels: seq<string>, data: seq<nat>)

  function ChartOf(top: Tally): (c: TopicChart)
    ensures |c.labels| == |c.originalLabels| == |c.data| == |top|
    ensures forall i :: 0 <= i < |top| ==>
      c.originalLabels[i] == top[i].0 && c.data[i] == top[i].1
      && c.labels[i] == TruncateText(c.originalLabels[i], DefaultMaxLength)
  {
    var originals := TallyKeys(top);
    TopicChart(seq(|top|, i requires 0 <= i < |top| => TruncateText(originals[i], DefaultMaxLength)),
               originals,
               seq(|top|, i requires 0 <= i < |top| => top[i].1))
  }

  /** The panel: a placeholder, or the three charts. */
  datatype Panel =
    | Placeholder
    | Charts(easy: nat, medium: nat, hard: nat, mcq: nat, short: nat, long: nat, other: nat, topics: TopicChart)

  /** The panel for `papers`. */
  method Render(papers: seq<Paper>) returns (panel: Panel)
    ensures panel.Placeholder? <==> forall i :: 0 <= i < |papers| ==> |papers[i].questions| == 0
    ensures panel.Charts? ==>
      var qs := AllQuestions(papers);
      panel.easy == Count(qs, DifficultyIs("easy")) && panel.medium == Count(qs, DifficultyIs("medium"))
      && panel.hard == Count(qs, DifficultyIs("hard"))
      && panel.mcq == Count(qs, TypeIs("mcq")) && panel.short == Count(qs, TypeIs("short"))
      && panel.long == Count(qs, TypeIs("long")) && panel.other == Count(qs, OtherType)
      && panel.mcq + panel.short + panel.long + panel.other == QuestionCount(papers)
      && panel.topics == ChartOf(TopTopics(TopicTally(qs)))
  {
    var valid := ValidPapers(papers);
    PlaceholderIff(papers);
    ValidPapersKeepQuestions(papers);
    TypeChartTotal(papers);
    if |valid| == 0 {
      return Placeholder;
    }
    var easy, medium, hard := DifficultyCounts(valid);
    var mcq, short, long, other := TypeCounts(valid);
    var topicMap := TallyTopics(valid);
    panel := Charts(easy, medium, hard, mcq, short, long, other, ChartOf(TopTopics(topicMap)));
  }
}
