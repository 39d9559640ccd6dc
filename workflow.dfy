/** The page's session state and its transitions, as values: what each
    handler and each enabled control does to the state.  The class
    `Page.Home` performs these transitions in place. */
module Workflow {
  import opened Common
  import opened Stages
  import opened Files
  import opened Messages

  /** What an awaited remote action settles to: its result, or the error it
      throws. */
  datatype Outcome<T> = Succeeded(value: T) | Failed(error: ApiError)

  /** A call to one of the page's remote actions, with the arguments passed.
      The selected paths are passed as `Array.from` of the set; only the set
      is kept here. */
  datatype Call =
    | FetchRepoFiles(repoUrl: string, pat: string)
    | GenerateSummariesAction(filePaths: set<string>, repoUrl: string, pat: string)
    | GenerateCodeAction(contextFiles: set<string>, repoUrl: string, pat: string,
                         summary: string, className: string)
    | CreatePrAction(repoUrl: string, pat: string, fileName: string,
                     content: string, commitMessage: string)

  /** The page's state variables. `selectedSummary` is `string | null`. */
  datatype Session = Session(
    repoUrl: string,
    pat: string,
    primaryClassName: string,
    testFileName: string,
    files: seq<FileNode>,
    selectedFilePaths: set<string>,
    summaries: seq<string>,
    selectedSummary: Option<string>,
    generatedCode: string,
    prUrl: string,
    appState: AppState,
    errorMessage: string)

  /** The state when the page mounts (the `useState` initial values). */
  function Fresh(): Session
  {
    Session("", "", "", "", [], {}, [], None, "", "", Initial, "")
  }

  /** `r` differs from `s` at most in the stage and the error message. */
  predicate KeepsData(s: Session, r: Session)
  {
    r == s.(appState := r.appState, errorMessage := r.errorMessage)
  }

  /** `selectedSummary` is truthy: set and not the empty string. */
  predicate HasSummary(s: Session)
  {
    s.selectedSummary.Some? && s.selectedSummary.value != ""
  }

  // ---------------------------------------------------------------------
  // Handlers

  /** `handleSelectFile`: a copy of the selection with `path` added or
      removed. */
  function SelectFile(s: Session, path: string, checked: bool): (r: Session)
    ensures path in r.selectedFilePaths <==> checked
    ensures forall p :: p != path ==> (p in r.selectedFilePaths <==> p in s.selectedFilePaths)
    ensures r == s.(selectedFilePaths := r.selectedFilePaths)
  {
    var newSelected := if checked then s.selectedFilePaths + {path}
                       else s.selectedFilePaths - {path};
    s.(selectedFilePaths := newSelected)
  }

  /** `handleError`, with a non-JSON error message shown as it is: the
      stage becomes `error` and the message names the failed handler,
      followed by the error's detail.  Everything already loaded stays. */
  function Fail(s: Session, a: Action, e: ApiError): (r: Session)
    ensures r.appState == Error && KeepsData(s, r)
    ensures FailedAction(r.errorMessage) == Some(a)
    ensures r.errorMessage == ErrorText(FailurePrefix(a), Detail(e))
  {
    ErrorTextIdentifiesAction(a, Detail(e));
    s.(errorMessage := ErrorText(FailurePrefix(a), Detail(e)), appState := Error)
  }

  /** `handleError` as written: when `JSON.parse` throws on the error's
      message, the handler is left by that exception and nothing is set. */
  function FailAsWritten(s: Session, a: Action, e: ApiError): (r: Session)
    ensures DetailAsWritten(e).None? ==> r == s
    ensures DetailAsWritten(e).Some? ==> r == Fail(s, a, e)
  {
    match DetailAsWritten(e)
    case None => s
    case Some(d) => s.(errorMessage := ErrorText(FailurePrefix(a), d), appState := Error)
  }

  /** The first half of `handleLoadFiles`: it has no guard of its own. */
  function StartLoadFiles(s: Session): (r: (Session, Call))
    ensures r.0.appState == FilesLoading && r.0.errorMessage == "" && KeepsData(s, r.0)
    ensures r.1 == FetchRepoFiles(s.repoUrl, s.pat)
  {
    (s.(appState := FilesLoading, errorMessage := ""), FetchRepoFiles(s.repoUrl, s.pat))
  }

  /** The rest of `handleLoadFiles`, once the tree arrives or the call fails:
      only the code files are listed, in the tree's order. */
  function FinishLoadFiles(s: Session, o: Outcome<seq<FileNode>>): (r: Session)
    requires s.appState == FilesLoading
    ensures o.Succeeded? ==> r.appState == FilesLoaded && r.files == CodeFiles(o.value)
                             && r == s.(files := r.files, appState := r.appState)
    ensures o.Failed? ==> r == Fail(s, LoadFiles, o.error)
  {
    match o
    case Succeeded(tree) => s.(files := CodeFiles(tree), appState := FilesLoaded)
    case Failed(e) => Fail(s, LoadFiles, e)
  }

  /** The first half of `handleGenerateSummaries`: nothing happens and
      nothing is called with an empty selection. */
  function StartGenerateSummaries(s: Session): (r: (Session, Option<Call>))
    ensures s.selectedFilePaths == {} ==> r == (s, None)
    ensures s.selectedFilePaths != {} ==>
              r.0.appState == SummariesLoading && r.0.errorMessage == "" && KeepsData(s, r.0)
              && r.1 == Some(GenerateSummariesAction(s.selectedFilePaths, s.repoUrl, s.pat))
  {
    if s.selectedFilePaths == {} then (s, None)
    else (s.(appState := SummariesLoading, errorMessage := ""),
          Some(GenerateSummariesAction(s.selectedFilePaths, s.repoUrl, s.pat)))
  }

  /** The rest of `handleGenerateSummaries`: the summaries are stored as
      returned, neither filtered nor checked for emptiness. */
  function FinishGenerateSummaries(s: Session, o: Outcome<seq<string>>): (r: Session)
    requires s.appState == SummariesLoading
    ensures o.Succeeded? ==> r.appState == SummariesLoaded && r.summaries == o.value
                             && r == s.(summaries := r.summaries, appState := r.appState)
    ensures o.Failed? ==> r == Fail(s, GenerateSummaries, o.error)
  {
    match o
    case Succeeded(summaries) => s.(summaries := summaries, appState := SummariesLoaded)
    case Failed(e) => Fail(s, GenerateSummaries, e)
  }

  /** The first half of `handleGenerateCode`: without a summary or a class
      name nothing happens and the model is not called. */
  function StartGenerateCode(s: Session): (r: (Session, Option<Call>))
    ensures !HasSummary(s) || s.primaryClassName == "" ==> r == (s, None)
    ensures HasSummary(s) && s.primaryClassName != "" ==>
              r.0.appState == CodeLoading && r.0.errorMessage == "" && KeepsData(s, r.0)
              && r.1 == Some(GenerateCodeAction(s.selectedFilePaths, s.repoUrl, s.pat,
                                                s.selectedSummary.value, s.primaryClassName))
  {
    if !HasSummary(s) then (s, None)
    else if s.primaryClassName == "" then (s, None)
    else (s.(appState := CodeLoading, errorMessage := ""),
          Some(GenerateCodeAction(s.selectedFilePaths, s.repoUrl, s.pat,
                                  s.selectedSummary.value, s.primaryClassName)))
  }

  /** The rest of `handleGenerateCode`: the code is stored, and the test
      filename is derived from the class name only when none is set. */
  function FinishGenerateCode(s: Session, o: Outcome<string>): (r: Session)
    requires s.appState == CodeLoading
    ensures o.Succeeded? ==>
              && r.appState == CodeLoaded && r.generatedCode == o.value
              && (s.testFileName == "" ==> r.testFileName == s.primaryClassName + "Test.java")
              && (s.testFileName != "" ==> r.testFileName == s.testFileName)
              && r == s.(generatedCode := r.generatedCode, appState := r.appState,
                         testFileName := r.testFileName)
    ensures o.Failed? ==> r == Fail(s, GenerateCode, o.error)
  {
    match o
    case Succeeded(code) =>
      s.(generatedCode := code, appState := CodeLoaded,
         testFileName := DefaultTestFileName(s.primaryClassName, s.testFileName))
    case Failed(e) => Fail(s, GenerateCode, e)
  }

  /** The first half of `handleCreatePr`: without code or a filename nothing
      happens; otherwise the commit message names the class under test. */
  function StartCreatePr(s: Session): (r: (Session, Option<Call>))
    ensures s.generatedCode == "" || s.testFileName == "" ==> r == (s, None)
    ensures s.generatedCode != "" && s.testFileName != "" ==>
              r.0.appState == PrLoading && r.0.errorMessage == "" && KeepsData(s, r.0)
              && r.1 == Some(CreatePrAction(s.repoUrl, s.pat, s.testFileName, s.generatedCode,
                                            "Feat: Add test case for " + s.primaryClassName))
  {
    if s.generatedCode == "" then (s, None)
    else if s.testFileName == "" then (s, None)
    else (s.(appState := PrLoading, errorMessage := ""),
          Some(CreatePrAction(s.repoUrl, s.pat, s.testFileName, s.generatedCode,
                              CommitMessage(s.primaryClassName))))
  }

  /** The rest of `handleCreatePr`: the returned URL is stored. */
  function FinishCreatePr(s: Session, o: Outcome<string>): (r: Session)
    requires s.appState == PrLoading
    ensures o.Succeeded? ==> r.appState == PrCreated && r.prUrl == o.value
                             && r == s.(prUrl := r.prUrl, appState := r.appState)
    ensures o.Failed? ==> r == Fail(s, CreatePr, o.error)
  {
    match o
    case Succeeded(url) => s.(prUrl := url, appState := PrCreated)
    case Failed(e) => Fail(s, CreatePr, e)
  }

  /** `resetState`: every field is set back, whatever it held, so the
      result is the state the page mounted with. */
  function ResetState(s: Session): (r: Session)
    ensures r == Fresh()
  {
    s.(appState := Initial, repoUrl := "", pat := "", primaryClassName := "",
       testFileName := "", files := [], selectedFilePaths := {}, summaries := [],
       selectedSummary := None, generatedCode := "", prUrl := "", errorMessage := "")
  }

  /** The error card's "Start Over": only the stage goes back to `initial`;
      the inputs, the loaded data and the error text are kept. */
  function DismissError(s: Session): (r: Session)
    ensures r.appState == Initial && r.errorMessage == s.errorMessage && KeepsData(s, r)
  {
    s.(appState := Initial)
  }

  /** Resetting twice is resetting once. */
  lemma ResetStateIdempotent(s: Session)
    ensures ResetState(ResetState(s)) == ResetState(s)
  {
  }

  // ---------------------------------------------------------------------
  // Buttons

  /** The handler each button runs, as a first half. */
  function Start(s: Session, a: Action): (Session, Option<Call>)
  {
    match a
    case LoadFiles => var (t, c) := StartLoadFiles(s); (t, Some(c))
    case GenerateSummaries => StartGenerateSummaries(s)
    case GenerateCode => StartGenerateCode(s)
    case CreatePr => StartCreatePr(s)
  }

  /** The `disabled` condition of each button, negated. */
  predicate Enabled(s: Session, a: Action)
  {
    match a
    case LoadFiles =>
      !(IsLoading(s.appState) || s.repoUrl == "" || s.pat == "" || s.appState != Initial)
    case GenerateSummaries =>
      !(IsLoading(s.appState) || s.selectedFilePaths == {} || s.appState == SummariesLoading)
    case GenerateCode =>
      !(IsLoading(s.appState) || !HasSummary(s) || s.primaryClassName == "")
    case CreatePr =>
      !(IsLoading(s.appState) || s.generatedCode == "" || s.testFileName == "")
  }

  /** A button is enabled exactly when no action is in flight and its
      handler's own guard would let it call out; "Load Files" adds the
      inputs and the `initial` stage, its handler having no guard.  An
      enabled button always enters that action's loading stage. */
  lemma ButtonMatchesHandler(s: Session, a: Action)
    ensures a != LoadFiles ==>
              (Enabled(s, a) <==> !IsLoading(s.appState) && Start(s, a).1.Some?)
    ensures a == LoadFiles ==>
              (Enabled(s, a) <==> s.appState == Initial && s.repoUrl != "" && s.pat != "")
    ensures Enabled(s, a) ==> Start(s, a).0.appState == LoadingStage(a) && Start(s, a).1.Some?
  {
  }

  // ---------------------------------------------------------------------
  // The page as a whole: every control the page renders, and the results
  // of the actions it awaits.

  datatype Event =
    | EditRepoUrl(value: string)
    | EditPat(value: string)
    | EditClassName(value: string)
    | EditTestFileName(value: string)
    | CheckFile(path: string, checked: bool)
    | ChooseSummary(summary: string)
    | Press(action: Action)
    | FilesArrived(tree: Outcome<seq<FileNode>>)
    | SummariesArrived(summaries: Outcome<seq<string>>)
    | CodeArrived(code: Outcome<string>)
    | PrArrived(url: Outcome<string>)
    | StartOver
    | DismissErrorCard

  /** Whether the event can reach the page in state `s`: the control is
      rendered and not disabled, or the matching action is in flight. */
  predicate Accepted(s: Session, ev: Event)
  {
    match ev
    case EditRepoUrl(_) => !(IsLoading(s.appState) || s.appState != Initial)
    case EditPat(_) => !(IsLoading(s.appState) || s.appState != Initial)
    case EditClassName(_) => !(IsLoading(s.appState) || s.summaries == [])
    case EditTestFileName(_) => !(IsLoading(s.appState) || s.generatedCode == "")
    case CheckFile(path, _) => path in Paths(s.files) && !IsLoading(s.appState)
    case ChooseSummary(v) => v in s.summaries && !IsLoading(s.appState)
    case Press(a) => Enabled(s, a)
    case FilesArrived(_) => s.appState == FilesLoading
    case SummariesArrived(_) => s.appState == SummariesLoading
    case CodeArrived(_) => s.appState == CodeLoading
    case PrArrived(_) => s.appState == PrLoading
    case StartOver => s.appState != Initial
    case DismissErrorCard => s.appState == Error
  }

  /** One event; an event the page cannot receive changes nothing. */
  function Step(s: Session, ev: Event): Session
  {
    if !Accepted(s, ev) then s
    else match ev
      case EditRepoUrl(v) => s.(repoUrl := v)
      case EditPat(v) => s.(pat := v)
      case EditClassName(v) => s.(primaryClassName := v)
      case EditTestFileName(v) => s.(testFileName := v)
      case CheckFile(path, checked) => SelectFile(s, path, checked)
      case ChooseSummary(v) => s.(selectedSummary := Some(v))
      case Press(a) => Start(s, a).0
      case FilesArrived(o) => FinishLoadFiles(s, o)
      case SummariesArrived(o) => FinishGenerateSummaries(s, o)
      case CodeArrived(o) => FinishGenerateCode(s, o)
      case PrArrived(o) => FinishCreatePr(s, o)
      case StartOver => ResetState(s)
      case DismissErrorCard => DismissError(s)
  }

  /** The state after a sequence of events. */
  function Run(s: Session, evs: seq<Event>): Session
  {
    if evs == [] then s else Step(Run(s, evs[..|evs| - 1]), evs[|evs| - 1])
  }

  /** What holds in every state the page can reach. */
  predicate StateInv(s: Session)
  {
    && (s.appState == FilesLoading ==> s.repoUrl != "" && s.pat != "")
    && (s.appState == SummariesLoading ==> s.selectedFilePaths != {})
    && (s.appState == CodeLoading ==> HasSummary(s) && s.primaryClassName != "")
    && (s.appState == PrLoading ==> s.testFileName != "")
    && (s.appState in {PrLoading, PrCreated} ==> s.generatedCode != "")
    && (IsLoading(s.appState) ==> s.errorMessage == "")
    && (s.appState == Error ==> FailedAction(s.errorMessage).Some?)
  }

  /** An event that leaves the stage, the error text and the code alone,
      taken outside any loading stage, keeps the invariant. */
  lemma QuietStepKeepsStateInv(s: Session, r: Session)
    requires StateInv(s) && !IsLoading(s.appState)
    requires r.appState == s.appState && r.errorMessage == s.errorMessage
    requires r.generatedCode == s.generatedCode
    ensures StateInv(r)
  {
  }

  /** An enabled button keeps the invariant. */
  lemma StartKeepsStateInv(s: Session, a: Action)
    requires StateInv(s) && Enabled(s, a)
    ensures StateInv(Start(s, a).0)
  {
    ButtonMatchesHandler(s, a);
  }

  /** A failure keeps the invariant. */
  lemma FailKeepsStateInv(s: Session, a: Action, e: ApiError)
    requires s.appState == LoadingStage(a)
    ensures StateInv(Fail(s, a, e))
  {
  }

  /** An arriving result keeps the invariant. */
  lemma FinishKeepsStateInv(s: Session, ev: Event)
    requires StateInv(s) && Accepted(s, ev)
    requires ev.FilesArrived? || ev.SummariesArrived? || ev.CodeArrived? || ev.PrArrived?
    ensures StateInv(Step(s, ev))
  {
    match ev
    case FilesArrived(o) =>
      if o.Failed? { FailKeepsStateInv(s, LoadFiles, o.error); }
    case SummariesArrived(o) =>
      if o.Failed? { FailKeepsStateInv(s, GenerateSummaries, o.error); }
    case CodeArrived(o) =>
      if o.Failed? { FailKeepsStateInv(s, GenerateCode, o.error); }
    case PrArrived(o) =>
      if o.Failed? { FailKeepsStateInv(s, CreatePr, o.error); }
  }

  lemma StepKeepsStateInv(s: Session, ev: Event)
    requires StateInv(s)
    ensures StateInv(Step(s, ev))
  {
    if Accepted(s, ev) {
      var r := Step(s, ev);
      match ev
      case Press(a) =>
        StartKeepsStateInv(s, a);
        assert r == Start(s, a).0;
      case FilesArrived(_) => FinishKeepsStateInv(s, ev);
      case SummariesArrived(_) => FinishKeepsStateInv(s, ev);
      case CodeArrived(_) => FinishKeepsStateInv(s, ev);
      case PrArrived(_) => FinishKeepsStateInv(s, ev);
      case StartOver =>
        assert r == Fresh();
      case DismissErrorCard =>
        assert r.appState == Initial;
      case EditRepoUrl(v) => QuietStepKeepsStateInv(s, r);
      case EditPat(v) => QuietStepKeepsStateInv(s, r);
      case EditClassName(v) => QuietStepKeepsStateInv(s, r);
      case EditTestFileName(v) => QuietStepKeepsStateInv(s, r);
      case CheckFile(path, checked) => QuietStepKeepsStateInv(s, r);
      case ChooseSummary(v) => QuietStepKeepsStateInv(s, r);
    }
  }

  /** Every reachable state satisfies `StateInv`: in particular no action is
      ever called without its handler's precondition, and while one is in
      flight no other can start (every action button is disabled).  This is
      about runs in which a result arrives only while its own loading stage
      is current; a result that settles after the header's Start Over is
      not a step of `Run`. */
  lemma {:induction false} RunKeepsStateInv(evs: seq<Event>)
    ensures StateInv(Run(Fresh(), evs))
  {
    if evs != [] {
      RunKeepsStateInv(evs[..|evs| - 1]);
      StepKeepsStateInv(Run(Fresh(), evs[..|evs| - 1]), evs[|evs| - 1]);
    }
  }

  /** While an action is in flight, no action button is enabled. */
  lemma LoadingDisablesButtons(s: Session, a: Action)
    requires IsLoading(s.appState)
    ensures !Enabled(s, a)
  {
  }

  /** While an action is in flight the page takes only that action's result
      and the header's Start Over; every input, checkbox and button is
      disabled. */
  lemma LoadingAcceptsOnlyResultOrStartOver(s: Session, ev: Event)
    requires IsLoading(s.appState) && Accepted(s, ev)
    ensures ev.StartOver?
            || (ev.FilesArrived? && s.appState == FilesLoading)
            || (ev.SummariesArrived? && s.appState == SummariesLoading)
            || (ev.CodeArrived? && s.appState == CodeLoading)
            || (ev.PrArrived? && s.appState == PrLoading)
  {
  }

  /** What one event can add: listed files or a selection only by a
      successful listing (or with files already listed), summaries or a
      chosen summary only by a successful summary generation, code only by
      a successful code generation. */
  lemma StepGrowth(s: Session, ev: Event)
    ensures var r := Step(s, ev);
      (r.files != [] || r.selectedFilePaths != {}) ==>
        (s.files != [] || s.selectedFilePaths != {})
        || (s.appState == FilesLoading && r.appState == FilesLoaded)
    ensures var r := Step(s, ev);
      (r.summaries != [] || r.selectedSummary.Some?) ==>
        (s.summaries != [] || s.selectedSummary.Some?)
        || (s.appState == SummariesLoading && r.appState == SummariesLoaded)
    ensures var r := Step(s, ev);
      r.generatedCode != "" ==>
        s.generatedCode != "" || (s.appState == CodeLoading && r.appState == CodeLoaded)
  {
  }

  /** The `i`-th state of the run of `evs`, the state before any event when
      `i` is 0, has stage `st`. */
  predicate ReachedAt(evs: seq<Event>, i: int, st: AppState)
  {
    0 <= i <= |evs| && Run(Fresh(), evs[..i]).appState == st
  }

  /** A state reached along a run is still reached along any extension. */
  lemma ReachedAtExtends(evs: seq<Event>, i: int, st: AppState)
    requires |evs| > 0 && ReachedAt(evs[..|evs| - 1], i, st)
    ensures ReachedAt(evs, i, st)
  {
    assert evs[..|evs| - 1][..i] == evs[..i];
  }

  /** The last state of a run is the run's own result. */
  lemma ReachedAtEnd(evs: seq<Event>)
    ensures ReachedAt(evs, |evs|, Run(Fresh(), evs).appState)
  {
    assert evs[..|evs|] == evs;
  }

  /** Files can be listed or selected only after a listing succeeded. */
  lemma {:induction false} FilesHistory(evs: seq<Event>)
    requires Run(Fresh(), evs).files != [] || Run(Fresh(), evs).selectedFilePaths != {}
    ensures exists i :: ReachedAt(evs, i, FilesLoaded)
  {
    var n := |evs| - 1;
    var s0 := Run(Fresh(), evs[..n]);
    StepGrowth(s0, evs[n]);
    if s0.files != [] || s0.selectedFilePaths != {} {
      FilesHistory(evs[..n]);
      var i :| ReachedAt(evs[..n], i, FilesLoaded);
      ReachedAtExtends(evs, i, FilesLoaded);
    } else {
      ReachedAtEnd(evs);
    }
  }

  /** Summaries can be held or chosen only after a listing and then a
      summary generation succeeded. */
  lemma {:induction false} SummariesHistory(evs: seq<Event>)
    requires Run(Fresh(), evs).summaries != [] || Run(Fresh(), evs).selectedSummary.Some?
    ensures exists i, j :: i < j && ReachedAt(evs, i, FilesLoaded) && ReachedAt(evs, j, SummariesLoaded)
  {
    var n := |evs| - 1;
    var s0 := Run(Fresh(), evs[..n]);
    StepGrowth(s0, evs[n]);
    if s0.summaries != [] || s0.selectedSummary.Some? {
      SummariesHistory(evs[..n]);
      var i, j :| i < j && ReachedAt(evs[..n], i, FilesLoaded) && ReachedAt(evs[..n], j, SummariesLoaded);
      ReachedAtExtends(evs, i, FilesLoaded);
      ReachedAtExtends(evs, j, SummariesLoaded);
    } else {
      RunKeepsStateInv(evs[..n]);
      FilesHistory(evs[..n]);
      var i :| ReachedAt(evs[..n], i, FilesLoaded);
      ReachedAtExtends(evs, i, FilesLoaded);
      ReachedAtEnd(evs);
    }
  }

  /** Code can be held only after a listing, a summary generation and a code
      generation succeeded, in that order. */
  lemma {:induction false} CodeHistory(evs: seq<Event>)
    requires Run(Fresh(), evs).generatedCode != ""
    ensures exists i, j, k :: i < j < k && ReachedAt(evs, i, FilesLoaded)
              && ReachedAt(evs, j, SummariesLoaded) && ReachedAt(evs, k, CodeLoaded)
  {
    var n := |evs| - 1;
    var s0 := Run(Fresh(), evs[..n]);
    StepGrowth(s0, evs[n]);
    if s0.generatedCode != "" {
      CodeHistory(evs[..n]);
      var i, j, k :| i < j < k && ReachedAt(evs[..n], i, FilesLoaded)
        && ReachedAt(evs[..n], j, SummariesLoaded) && ReachedAt(evs[..n], k, CodeLoaded);
      ReachedAtExtends(evs, i, FilesLoaded);
      ReachedAtExtends(evs, j, SummariesLoaded);
      ReachedAtExtends(evs, k, CodeLoaded);
    } else {
      RunKeepsStateInv(evs[..n]);
      SummariesHistory(evs[..n]);
      var i, j :| i < j && ReachedAt(evs[..n], i, FilesLoaded) && ReachedAt(evs[..n], j, SummariesLoaded);
      ReachedAtExtends(evs, i, FilesLoaded);
      ReachedAtExtends(evs, j, SummariesLoaded);
      ReachedAtEnd(evs);
    }
  }

  /** From the page's first render, code generation cannot start without a
      chosen summary and a class name, nor before files were listed and
      summaries generated, in that order. */
  lemma CodeGenerationFollowsPipeline(evs: seq<Event>)
    requires Run(Fresh(), evs).appState == CodeLoading
    ensures HasSummary(Run(Fresh(), evs)) && Run(Fresh(), evs).primaryClassName != ""
    ensures exists i, j :: i < j && ReachedAt(evs, i, FilesLoaded) && ReachedAt(evs, j, SummariesLoaded)
  {
    RunKeepsStateInv(evs);
    SummariesHistory(evs);
  }

  /** A pull request is only ever requested (or reported created) for
      non-empty code, after the three earlier stages ran in order. */
  lemma PullRequestFollowsPipeline(evs: seq<Event>)
    requires Run(Fresh(), evs).appState in {PrLoading, PrCreated}
    ensures Run(Fresh(), evs).generatedCode != ""
    ensures exists i, j, k :: i < j < k && ReachedAt(evs, i, FilesLoaded)
              && ReachedAt(evs, j, SummariesLoaded) && ReachedAt(evs, k, CodeLoaded)
  {
    RunKeepsStateInv(evs);
    CodeHistory(evs);
  }

  // ---------------------------------------------------------------------
  // The error handler's parse failure

  /** As written, a remote failure whose message is not JSON (a network
      error's "fetch failed", say) makes `handleError` throw before it sets
      anything: the page stays in its loading stage with every action button
      disabled, and no later result is awaited.  Only the header's Start
      Over, which clears everything, gets out. */
  lemma NonJsonErrorLeavesPageLoading(s: Session, a: Action)
    requires s.appState == LoadingStage(a)
    ensures var r := FailAsWritten(s, a, ApiError("fetch failed", None));
      r == s && IsLoading(r.appState) && (forall b :: !Enabled(r, b))
      && Step(r, StartOver) == Fresh()
  {
  }

  /** With the parse failure handled, every failure leaves the loading
      stage, and it agrees with the handler as written wherever that one
      sets a message. */
  lemma FailAlwaysLeavesLoading(s: Session, a: Action, e: ApiError)
    ensures !IsLoading(Fail(s, a, e).appState)
    ensures FailAsWritten(s, a, e) != s ==> FailAsWritten(s, a, e) == Fail(s, a, e)
  {
  }
}
