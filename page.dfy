/** The `Home` page component: its state variables as mutable fields and its
    handlers as methods that update them in place.  Each handler is split at
    its `await`: a `Start` method runs up to the remote call and returns the
    call it makes, a `Finish` method runs the rest once the call settles. */
module Page {
  import opened Common
  import opened Stages
  import opened Files
  import opened Messages
  import W = Workflow

  class Home {
    var repoUrl: string
    var pat: string
    var primaryClassName: string
    var testFileName: string
    var files: seq<FileNode>
    var selectedFilePaths: set<string>
    var summaries: seq<string>
    var selectedSummary: Option<string>
    var generatedCode: string
    var prUrl: string
    var appState: AppState
    var errorMessage: string

    /** The fields as one session value. */
    function Model(): W.Session
      reads this
    {
      W.Session(repoUrl, pat, primaryClassName, testFileName, files, selectedFilePaths,
                summaries, selectedSummary, generatedCode, prUrl, appState, errorMessage)
    }

    /** The properties every state reachable through the page's controls
        has. */
    ghost predicate Valid()
      reads this
    {
      W.StateInv(Model())
    }

    /** The `useState` initial values. */
    constructor ()
      ensures Model() == W.Fresh() && Valid()
    {
      repoUrl, pat, primaryClassName, testFileName := "", "", "", "";
      files, selectedFilePaths := [], {};
      summaries, selectedSummary := [], None;
      generatedCode, prUrl := "", "";
      appState, errorMessage := Initial, "";
    }

    method SelectFile(path: string, checked: bool)
      modifies this
      ensures Model() == W.SelectFile(old(Model()), path, checked)
      ensures old(Valid()) && !IsLoading(appState) ==> Valid()
    {
      var newSelected := selectedFilePaths;
      if checked {
        newSelected := newSelected + {path};
      } else {
        newSelected := newSelected - {path};
      }
      selectedFilePaths := newSelected;
    }

    method HandleError(a: Action, e: ApiError)
      modifies this
      ensures Model() == W.Fail(old(Model()), a, e)
    {
      errorMessage := ErrorText(FailurePrefix(a), Detail(e));
      appState := Error;
    }

    method StartLoadFiles() returns (call: W.Call)
      modifies this
      ensures (Model(), call) == W.StartLoadFiles(old(Model()))
    {
      appState := FilesLoading;
      errorMessage := "";
      call := W.FetchRepoFiles(repoUrl, pat);
    }

    method FinishLoadFiles(o: W.Outcome<seq<FileNode>>)
      requires appState == FilesLoading && Valid()
      modifies this
      ensures Model() == W.FinishLoadFiles(old(Model()), o) && Valid()
    {
      ghost var before := Model();
      if o.Failed? {
        W.FailKeepsStateInv(before, LoadFiles, o.error);
      }
      match o
      case Succeeded(tree) =>
        files := CodeFiles(tree);
        appState := FilesLoaded;
      case Failed(e) =>
        HandleError(LoadFiles, e);
    }

    method StartGenerateSummaries() returns (call: Option<W.Call>)
      modifies this
      ensures (Model(), call) == W.StartGenerateSummaries(old(Model()))
    {
      if selectedFilePaths == {} {
        return None;
      }
      appState := SummariesLoading;
      errorMessage := "";
      call := Some(W.GenerateSummariesAction(selectedFilePaths, repoUrl, pat));
    }

    method FinishGenerateSummaries(o: W.Outcome<seq<string>>)
      requires appState == SummariesLoading && Valid()
      modifies this
      ensures Model() == W.FinishGenerateSummaries(old(Model()), o) && Valid()
    {
      ghost var before := Model();
      if o.Failed? {
        W.FailKeepsStateInv(before, GenerateSummaries, o.error);
      }
      match o
      case Succeeded(testCaseSummaries) =>
        summaries := testCaseSummaries;
        appState := SummariesLoaded;
      case Failed(e) =>
        HandleError(GenerateSummaries, e);
    }

    method StartGenerateCode() returns (call: Option<W.Call>)
      modifies this
      ensures (Model(), call) == W.StartGenerateCode(old(Model()))
    {
      if selectedSummary.None? || selectedSummary.value == "" {
        return None;
      }
      if primaryClassName == "" {
        return None;
      }
      appState := CodeLoading;
      errorMessage := "";
      call := Some(W.GenerateCodeAction(selectedFilePaths, repoUrl, pat,
                                        selectedSummary.value, primaryClassName));
    }

    method FinishGenerateCode(o: W.Outcome<string>)
      requires appState == CodeLoading && Valid()
      modifies this
      ensures Model() == W.FinishGenerateCode(old(Model()), o) && Valid()
    {
      ghost var before := Model();
      if o.Failed? {
        W.FailKeepsStateInv(before, GenerateCode, o.error);
      }
      match o
      case Succeeded(testCode) =>
        generatedCode := testCode;
        appState := CodeLoaded;
        if testFileName == "" {
          testFileName := primaryClassName + "Test.java";
        }
      case Failed(e) =>
        HandleError(GenerateCode, e);
    }

    method StartCreatePr() returns (call: Option<W.Call>)
      modifies this
      ensures (Model(), call) == W.StartCreatePr(old(Model()))
    {
      if generatedCode == "" {
        return None;
      }
      if testFileName == "" {
        return None;
      }
      appState := PrLoading;
      errorMessage := "";
      call := Some(W.CreatePrAction(repoUrl, pat, testFileName, generatedCode,
                                    CommitMessage(primaryClassName)));
    }

    method FinishCreatePr(o: W.Outcome<string>)
      requires appState == PrLoading && Valid()
      modifies this
      ensures Model() == W.FinishCreatePr(old(Model()), o) && Valid()
    {
      ghost var before := Model();
      if o.Failed? {
        W.FailKeepsStateInv(before, CreatePr, o.error);
      }
      match o
      case Succeeded(htmlUrl) =>
        prUrl := htmlUrl;
        appState := PrCreated;
      case Failed(e) =>
        HandleError(CreatePr, e);
    }

    method ResetState()
      modifies this
      ensures Model() == W.ResetState(old(Model())) && Valid()
    {
      appState := Initial;
      repoUrl := "";
      pat := "";
      primaryClassName := "";
      testFileName := "";
      files := [];
      selectedFilePaths := {};
      summaries := [];
      selectedSummary := None;
      generatedCode := "";
      prUrl := "";
      errorMessage := "";
    }

    /** The error card's "Start Over" button. */
    method DismissError()
      modifies this
      ensures Model() == W.DismissError(old(Model())) && Valid()
    {
      appState := Initial;
    }

    /** The first half of the handler a button runs. */
    method Click(a: Action) returns (call: Option<W.Call>)
      modifies this
      ensures (Model(), call) == W.Start(old(Model()), a)
      ensures old(Valid()) && W.Enabled(old(Model()), a) ==> Valid()
    {
      ghost var before := Model();
      if W.StateInv(before) && W.Enabled(before, a) {
        W.StartKeepsStateInv(before, a);
      }
      match a
      case LoadFiles =>
        var c := StartLoadFiles();
        call := Some(c);
      case GenerateSummaries =>
        call := StartGenerateSummaries();
      case GenerateCode =>
        call := StartGenerateCode();
      case CreatePr =>
        call := StartCreatePr();
    }

    /** One event from the rendered page: a control that is disabled or not
        rendered does nothing, and a result arrives only while its action is
        in flight.  The page's invariant is kept, and a remote call is made
        exactly when an enabled button is pressed. */
    method Dispatch(ev: W.Event) returns (call: Option<W.Call>)
      requires Valid()
      modifies this
      ensures Model() == W.Step(old(Model()), ev) && Valid()
      ensures call.Some? <==> ev.Press? && W.Enabled(old(Model()), ev.action)
      ensures call.Some? ==> call == W.Start(old(Model()), ev.action).1
    {
      ghost var before := Model();
      W.StepKeepsStateInv(before, ev);
      call := None;
      if !W.Accepted(Model(), ev) {
        return;
      }
      match ev {
        case EditRepoUrl(v) => repoUrl := v;
        case EditPat(v) => pat := v;
        case EditClassName(v) => primaryClassName := v;
        case EditTestFileName(v) => testFileName := v;
        case CheckFile(path, checked) => SelectFile(path, checked);
        case ChooseSummary(v) => selectedSummary := Some(v);
        case Press(a) =>
          W.ButtonMatchesHandler(before, a);
          call := Click(a);
        case FilesArrived(o) => FinishLoadFiles(o);
        case SummariesArrived(o) => FinishGenerateSummaries(o);
        case CodeArrived(o) => FinishGenerateCode(o);
        case PrArrived(o) => FinishCreatePr(o);
        case StartOver => ResetState();
        case DismissErrorCard => DismissError();
      }
    }
  }
}
