/**
 * The question paper list (client/src/pages/QuestionPapers/QuestionPapers.jsx):
 * the fetch with its checks and messages, the search and subject filters,
 * and the subject list of the filter menu.
 */
module QuestionPapers {
  import opened Common
  import opened Api
  import opened Papers
  import opened AuthContext

  const NotLoggedIn: string := "You must be logged in to view question papers."
  const NoToken: string := "Authentication token not found. Please log in again."
  const SessionExpired: string := "Your session has expired. Please log in again."
  const LoadFailed: string := "Failed to load question papers. Please try again later."

  /** The search box: empty, or the term in the title or the subject,
      ignoring case. */
  function MatchesSearch(term: string): Paper -> bool
  {
    (p: Paper) => term == ""
      || (p.title != "" && ContainsIgnoringCase(p.title, term))
      || (p.subject != "" && ContainsIgnoringCase(p.subject, term))
  }

  /** The subject menu: empty, or the paper's subject equal to it ignoring
      case. */
  function MatchesSubject(subject: string): Paper -> bool
  {
    (p: Paper) => subject == "" || (p.subject != "" && Lower(p.subject) == Lower(subject))
  }

  function Shown(term: string, subject: string): Paper -> bool
  {
    (p: Paper) => MatchesSearch(term)(p) && MatchesSubject(subject)(p)
  }

  /** `filteredPapers`. */
  function FilteredPapers(papers: seq<Paper>, term: string, subject: string): seq<Paper>
  {
    Filter(papers, Shown(term, subject))
  }

  /** A paper is listed exactly when it passes both filters, and the list
      keeps the fetched order: it is the search applied to the papers of
      the chosen subject, and the other way round. */
  lemma FilteredSpec(papers: seq<Paper>, term: string, subject: string)
    ensures forall i :: 0 <= i < |papers| ==>
      (papers[i] in FilteredPapers(papers, term, subject) <==>
        MatchesSearch(term)(papers[i]) && MatchesSubject(subject)(papers[i]))
    ensures FilteredPapers(papers, term, subject)
      == Filter(Filter(papers, MatchesSearch(term)), MatchesSubject(subject))
    ensures FilteredPapers(papers, term, subject)
      == Filter(Filter(papers, MatchesSubject(subject)), MatchesSearch(term))
  {
    var r := FilteredPapers(papers, term, subject);
    forall i | 0 <= i < |papers| && papers[i] in r
      ensures MatchesSearch(term)(papers[i]) && MatchesSubject(subject)(papers[i])
    {
      var k :| 0 <= k < |r| && r[k] == papers[i];
    }
    FilterFilter(papers, MatchesSearch(term), MatchesSubject(subject), Shown(term, subject));
    FilterFilter(papers, MatchesSubject(subject), MatchesSearch(term), Shown(term, subject));
  }

  /** With both filters empty every paper is listed. */
  lemma EmptyFiltersShowAll(papers: seq<Paper>)
    ensures FilteredPapers(papers, "", "") == papers
  {
    forall i | 0 <= i < |papers|
      ensures Shown("", "")(papers[i])
    {
      assert MatchesSearch("")(papers[i]) && MatchesSubject("")(papers[i]);
    }
    FilterKeepsAll(papers, Shown("", ""));
  }

  /** What the page shows. */
  class QuestionPapersPage {
    var questionPapers: seq<Paper>
    var loading: bool
    var error: string
    var searchTerm: string
    var subjectFilter: string

    constructor ()
      ensures questionPapers == [] && loading && error == ""
      ensures searchTerm == "" && subjectFilter == ""
    {
      questionPapers := [];
      loading := true;
      error := "";
      searchTerm := "";
      subjectFilter := "";
    }

    function Filtered(): seq<Paper>
      reads this
    {
      FilteredPapers(questionPapers, searchTerm, subjectFilter)
    }

    function Subjects(): seq<string>
      reads this
    {
      Papers.Subjects(questionPapers)
    }

    /** The effect on `user`: without a user, or without a stored token,
        only an error is set and no request is made; otherwise the headers
        are refreshed and `o` answers `GET /api/v1/question-papers`, whose
        body may lack `data.questionPapers` (`None`). */
    method FetchQuestionPapers(auth: AuthProvider, o: Response<Option<seq<Paper>>>)
      modifies this, auth, auth.browser
      ensures !loading
      ensures searchTerm == old(searchTerm) && subjectFilter == old(subjectFilter)
      ensures old(auth.user).None? ==>
        error == NotLoggedIn && questionPapers == old(questionPapers) && auth.State() == old(auth.State())
      ensures old(auth.user).Some? && StoredToken(old(auth.browser.storage)).None? ==>
        error == NoToken && questionPapers == old(questionPapers) && auth.State() == old(auth.State())
      ensures old(auth.user).Some? && StoredToken(old(auth.browser.storage)).Some? ==>
        var w := AfterRefreshAuthHeaders(old(auth.State())).0;
        auth.State() == w.(runtime := AfterResponse(w.runtime, o))
      ensures old(auth.user).Some? && StoredToken(old(auth.browser.storage)).Some? && o.Ok? ==>
        error == "" && questionPapers == (if o.body.Some? then o.body.value else [])
      ensures old(auth.user).Some? && StoredToken(old(auth.browser.storage)).Some? && !o.Ok? ==>
        questionPapers == []
        && error == (if o.Rejected? && o.status == 401 then SessionExpired else LoadFailed)
    {
      if auth.user.None? {
        error := NotLoggedIn;
        loading := false;
        return;
      }
      loading := true;
      error := "";
      var token := StoredToken(auth.browser.storage);
      if token.None? {
        error := NoToken;
        loading := false;
        return;
      }
      var _ := auth.RefreshAuthHeaders();
      auth.browser.InterceptResponse(o);
      if o.Ok? {
        if o.body.Some? {
          questionPapers := o.body.value;
        } else {
          questionPapers := [];
        }
      } else {
        if o.Rejected? && o.status == 401 {
          error := SessionExpired;
        } else {
          error := LoadFailed;
        }
        questionPapers := [];
      }
      loading := false;
    }
  }

  /** After an expired session the token is gone, though the provider
      still reports the session as authenticated. */
  lemma ExpiredSessionDropsToken(w: World, message: string)
    requires StoredToken(w.runtime.storage).Some?
    ensures var w1 := AfterRefreshAuthHeaders(w).0;
      var failed: Response<Option<seq<Paper>>> := Rejected(401, message);
      StoredToken(AfterResponse(w1.runtime, failed).storage).None? && w1.session.isAuthenticated
  {
  }
}
