/**
 * The paper dashboard (client/src/pages/Dashboard/Dashboard.jsx): the
 * fetched list, the filtered list shown, the four statistics, and the
 * search, delete and export handlers that replace them.
 */
module PaperDashboard {
  import opened Common
  import opened Api
  import opened Papers

  const FetchFailed: string := "Failed to fetch question papers"
  const DeleteFailed: string := "Failed to delete question paper"
  const ExportFailed: string := "Failed to export question paper"

  datatype Stats = Stats(totalPapers: int, totalQuestions: nat, papersSolved: nat, papersExported: nat)

  /** The paper has a non-empty `attempts` list. */
  predicate Solved(p: Paper)
  {
    p.attempts > 0
  }

  /** `paper.exports && paper.exports > 0`. */
  predicate Exported(p: Paper)
  {
    p.exports > 0
  }

  /** The statistics computed from a fetched list. */
  function StatsOf(papers: seq<Paper>): (s: Stats)
    ensures s.totalPapers == |papers|
    ensures s.totalQuestions == |AllQuestions(papers)|
    ensures s.papersSolved == |Filter(papers, Solved)| <= |papers|
    ensures s.papersExported == |Filter(papers, Exported)| <= |papers|
  {
    QuestionCountIsAllQuestions(papers);
    FilterCount(papers, Solved);
    FilterCount(papers, Exported);
    Stats(|papers|, QuestionCount(papers), Count(papers, Solved), Count(papers, Exported))
  }

  predicate TitleOrSubjectMatch(p: Paper, term: string)
  {
    ContainsIgnoringCase(p.title, term) || ContainsIgnoringCase(p.subject, term)
  }

  /** The search filter as written: a paper whose title and subject do
      not match and that has no `class` makes `paper.class.toLowerCase()`
      throw, and the whole search with it (`None`). */
  function SearchAsWritten(papers: seq<Paper>, term: string): Option<seq<Paper>>
  {
    if |papers| == 0 then Some([])
    else
      var p := papers[|papers| - 1];
      match SearchAsWritten(papers[..|papers| - 1], term)
      case None => None
      case Some(kept) =>
        if TitleOrSubjectMatch(p, term) then Some(kept + [p])
        else if p.cls.None? then None
        else if ContainsIgnoringCase(p.cls.value, term) then Some(kept + [p])
        else Some(kept)
  }

  /** As written, a search that misses the title and subject of a paper
      without a class throws instead of filtering. */
  lemma {:induction false} SearchThrowsWithoutClass(papers: seq<Paper>, term: string, i: nat)
    requires i < |papers| && !TitleOrSubjectMatch(papers[i], term) && papers[i].cls.None?
    ensures SearchAsWritten(papers, term).None?
  {
    if i < |papers| - 1 {
      SearchThrowsWithoutClass(papers[..|papers| - 1], term, i);
    }
  }

  /** A concrete instance: searching "physics" over a paper titled "A" on
      subject "B" with no class. */
  lemma SearchThrowsExample()
    ensures SearchAsWritten([Paper("p1", "A", "B", None, [], 0, 0)], "physics").None?
  {
    var p := Paper("p1", "A", "B", None, [], 0, 0);
    assert |Lower("physics")| > |Lower("A")| && |Lower("physics")| > |Lower("B")|;
    SearchThrowsWithoutClass([p], "physics", 0);
  }

  /** The search as evidently intended: a paper matches when its title,
      subject or (present) class contains the term, ignoring case. */
  function Matches(term: string): Paper -> bool
  {
    (p: Paper) => TitleOrSubjectMatch(p, term) || (p.cls.Some? && ContainsIgnoringCase(p.cls.value, term))
  }

  /** `handleSearch`, corrected: an empty term restores the full list. */
  function SearchResults(papers: seq<Paper>, term: string): (r: seq<Paper>)
    ensures term == "" ==> r == papers
    ensures term != "" ==> r == Filter(papers, Matches(term))
  {
    if term == "" then papers else Filter(papers, Matches(term))
  }

  /** The search keeps exactly the matching papers. */
  lemma SearchSpec(papers: seq<Paper>, term: string)
    ensures term != "" ==> forall i :: 0 <= i < |papers| ==>
      (papers[i] in SearchResults(papers, term) <==> Matches(term)(papers[i]))
    ensures |SearchResults(papers, term)| <= |papers|
  {
    if term != "" {
      var r := SearchResults(papers, term);
      forall i | 0 <= i < |papers| && papers[i] in r
        ensures Matches(term)(papers[i])
      {
        var k :| 0 <= k < |r| && r[k] == papers[i];
      }
    }
  }

  /** Where every paper has a class, the code as written already filters
      exactly as intended. */
  lemma {:induction false} SearchAgreesWithClasses(papers: seq<Paper>, term: string)
    requires forall i :: 0 <= i < |papers| ==> papers[i].cls.Some?
    ensures SearchAsWritten(papers, term) == Some(Filter(papers, Matches(term)))
  {
    if |papers| > 0 {
      var init := papers[..|papers| - 1];
      var p := papers[|papers| - 1];
      SearchAgreesWithClasses(init, term);
      assert Filter(papers, Matches(term)) == Filter(init, Matches(term)) + (if Matches(term)(p) then [p] else []);
      assert p.cls.Some?;
      var kept := Filter(init, Matches(term));
      assert SearchAsWritten(init, term) == Some(kept);
      if Matches(term)(p) {
        assert SearchAsWritten(papers, term) == Some(kept + [p]);
      } else {
        assert SearchAsWritten(papers, term) == Some(kept);
        assert kept + [] == kept;
      }
    }
  }

  /** `paper._id !== paperId`. */
  function Other(id: string): Paper -> bool
  {
    (p: Paper) => p.id != id
  }

  function Same(id: string): Paper -> bool
  {
    (p: Paper) => p.id == id
  }

  /** The list after deleting `id`. */
  function Without(papers: seq<Paper>, id: string): (r: seq<Paper>)
    ensures forall i :: 0 <= i < |r| ==> r[i].id != id && r[i] in papers
    ensures forall i :: 0 <= i < |papers| && papers[i].id != id ==> papers[i] in r
  {
    Filter(papers, Other(id))
  }

  /** Deleting removes as many papers as carry the id, so the decrement of
      `totalPapers` by one matches the list exactly when one paper has it. */
  lemma DeleteCount(papers: seq<Paper>, id: string)
    ensures |Without(papers, id)| == |papers| - Count(papers, Same(id))
    ensures |Without(papers, id)| == |papers| - 1 <==> Count(papers, Same(id)) == 1
  {
    FilterCount(papers, Other(id));
    CountComplement(papers, Same(id), Other(id));
  }

  /** `{ ...paper, exports: (paper.exports || 0) + 1 }` for the papers with
      the id. */
  function BumpExports(papers: seq<Paper>, id: string): (r: seq<Paper>)
    ensures |r| == |papers|
  {
    seq(|papers|, i requires 0 <= i < |papers| =>
      if papers[i].id == id then papers[i].(exports := papers[i].exports + 1) else papers[i])
  }

  /** Exporting adds one to the counter of each paper with the id and
      changes nothing else; those papers then count as exported. */
  lemma ExportSpec(papers: seq<Paper>, id: string)
    ensures forall i :: 0 <= i < |papers| ==>
      BumpExports(papers, id)[i].(exports := papers[i].exports) == papers[i]
    ensures forall i :: 0 <= i < |papers| ==>
      BumpExports(papers, id)[i].exports == papers[i].exports + (if papers[i].id == id then 1 else 0)
    ensures forall i :: 0 <= i < |papers| && papers[i].id == id && papers[i].exports >= 0 ==>
      Exported(BumpExports(papers, id)[i])
  {
  }

  /** Exporting leaves ids and questions alone: deleting afterwards gives
      the same list as deleting the original, and the question total is
      unchanged. */
  lemma {:induction false} ExportThenDelete(papers: seq<Paper>, id: string)
    ensures Without(BumpExports(papers, id), id) == Without(papers, id)
    ensures QuestionCount(BumpExports(papers, id)) == QuestionCount(papers)
  {
    if |papers| > 0 {
      var init := papers[..|papers| - 1];
      ExportThenDelete(init, id);
      assert BumpExports(papers, id)[..|papers| - 1] == BumpExports(init, id);
    }
  }

  /** The page after `fetchPapers` as written, with a list `None` where it
      is `undefined`: `setPapers` and `setFilteredPapers` take
      `response.data.questionPapers` before anything can throw, so a 2xx
      body without it leaves both lists `undefined`; the `reduce` then
      throws and the `catch` sets the error. A rejected request never
      reaches the setters. */
  datatype FetchEnd = FetchEnd(papers: Option<seq<Paper>>, filteredPapers: Option<seq<Paper>>, error: string)

  function FetchAsWritten(papers: seq<Paper>, filtered: seq<Paper>, error: string, o: Response<Option<seq<Paper>>>): FetchEnd
  {
    if o.Ok? && o.body.Some? then FetchEnd(o.body, o.body, error)
    else if o.Ok? then FetchEnd(None, None, FailureMessage(o, FetchFailed))
    else FetchEnd(Some(papers), Some(filtered), FailureMessage(o, FetchFailed))
  }

  /** The page can render its error: the render reads
      `filteredPapers.length` before any paper, which throws on `undefined`
      and takes the whole page down. */
  predicate ErrorShown(e: FetchEnd)
  {
    e.filteredPapers.Some? && e.error != ""
  }

  /** As written, a 2xx reply without `questionPapers` sets an error that
      is never shown, because the next render throws; every other failed
      fetch shows its error. */
  lemma FetchWithoutListHidesError(papers: seq<Paper>, filtered: seq<Paper>, error: string, o: Response<Option<seq<Paper>>>)
    requires !(o.Ok? && o.body.Some?)
    ensures FetchAsWritten(papers, filtered, error, o).error != ""
    ensures ErrorShown(FetchAsWritten(papers, filtered, error, o)) <==> !o.Ok?
  {
  }

  class Dashboard {
    var papers: seq<Paper>
    var filteredPapers: seq<Paper>
    var stats: Stats
    var error: string
    var isLoading: bool

    constructor ()
      ensures papers == [] && filteredPapers == [] && stats == Stats(0, 0, 0, 0)
      ensures error == "" && isLoading
    {
      papers := [];
      filteredPapers := [];
      stats := Stats(0, 0, 0, 0);
      error := "";
      isLoading := true;
    }

    /** `fetchPapers`: `o` answers `GET /api/v1/question-papers`, whose body
        may lack `questionPapers` (`None`). Such a body keeps both lists, so
        the error it sets is shown, unlike `FetchAsWritten`. */
    method FetchPapers(b: Browser, o: Response<Option<seq<Paper>>>)
      modifies this, b
      ensures b.State() == AfterResponse(old(b.State()), o)
      ensures !isLoading
      ensures o.Ok? && o.body.Some? ==>
        papers == o.body.value && filteredPapers == o.body.value
        && stats == StatsOf(o.body.value) && error == old(error)
      ensures !(o.Ok? && o.body.Some?) ==>
        papers == old(papers) && filteredPapers == old(filteredPapers) && stats == old(stats)
        && error == FailureMessage(o, FetchFailed)
        && ErrorShown(FetchEnd(Some(papers), Some(filteredPapers), error))
    {
      isLoading := true;
      b.InterceptResponse(o);
      if o.Ok? && o.body.Some? {
        var fetched := o.body.value;
        papers := fetched;
        filteredPapers := fetched;
        stats := StatsOf(fetched);
      } else {
        error := FailureMessage(o, FetchFailed);
      }
      isLoading := false;
    }

    /** `handleSearch`, with a missing class counting as no match. */
    method HandleSearch(term: string)
      modifies this
      ensures filteredPapers == SearchResults(papers, term)
      ensures papers == old(papers) && stats == old(stats) && error == old(error) && isLoading == old(isLoading)
    {
      if term == "" {
        filteredPapers := papers;
        return;
      }
      filteredPapers := Filter(papers, Matches(term));
    }

    /** `handleDelete`: nothing happens unless the user confirms; a
        successful `DELETE` drops the papers with the id from both lists and
        lowers `totalPapers` by one; a failure only sets the error. */
    method HandleDelete<T>(b: Browser, confirmed: bool, id: string, o: Response<T>)
      modifies this, b
      ensures !confirmed ==>
        b.State() == old(b.State()) && papers == old(papers) && filteredPapers == old(filteredPapers)
        && stats == old(stats) && error == old(error)
      ensures confirmed ==> b.State() == AfterResponse(old(b.State()), o)
      ensures confirmed && o.Ok? ==>
        papers == Without(old(papers), id) && filteredPapers == Without(old(filteredPapers), id)
        && stats == old(stats).(totalPapers := old(stats).totalPapers - 1) && error == old(error)
      ensures confirmed && !o.Ok? ==>
        papers == old(papers) && filteredPapers == old(filteredPapers) && stats == old(stats)
        && error == FailureMessage(o, DeleteFailed)
      ensures isLoading == old(isLoading)
    {
      if !confirmed {
        return;
      }
      b.InterceptResponse(o);
      if o.Ok? {
        papers := Filter(papers, Other(id));
        filteredPapers := Filter(filteredPapers, Other(id));
        stats := stats.(totalPapers := stats.totalPapers - 1);
      } else {
        error := FailureMessage(o, DeleteFailed);
      }
    }

    /** `handleExport`: a successful download bumps the export counter of
        the papers with the id in both lists; the statistics stay as they
        were; a failure only sets the error. */
    method HandleExport<T>(b: Browser, id: string, o: Response<T>)
      modifies this, b
      ensures b.State() == AfterResponse(old(b.State()), o)
      ensures o.Ok? ==>
        papers == BumpExports(old(papers), id) && filteredPapers == BumpExports(old(filteredPapers), id)
        && error == old(error)
      ensures !o.Ok? ==>
        papers == old(papers) && filteredPapers == old(filteredPapers) && error == FailureMessage(o, ExportFailed)
      ensures stats == old(stats) && isLoading == old(isLoading)
    {
      b.InterceptResponse(o);
      if o.Ok? {
        papers := BumpExports(papers, id);
        filteredPapers := BumpExports(filteredPapers, id);
      } else {
        error := FailureMessage(o, ExportFailed);
      }
    }
  }
}
