/** The page's stage (`AppState`) and the four remote actions that move it. */
module Stages {
  import opened Common

  /** The ten values of `AppState`, in the order the page declares them. */
  datatype AppState =
    | Initial
    | FilesLoading
    | FilesLoaded
    | SummariesLoading
    | SummariesLoaded
    | CodeLoading
    | CodeLoaded
    | PrLoading
    | PrCreated
    | Error

  /** The string literal the page uses for each stage. */
  function Name(s: AppState): string
  {
    match s
    case Initial => "initial"
    case FilesLoading => "files_loading"
    case FilesLoaded => "files_loaded"
    case SummariesLoading => "summaries_loading"
    case SummariesLoaded => "summaries_loaded"
    case CodeLoading => "code_loading"
    case CodeLoaded => "code_loaded"
    case PrLoading => "pr_loading"
    case PrCreated => "pr_created"
    case Error => "error"
  }

  /** Which stage names end in `_loading`, checked name by name. */
  lemma LoadingNames(s: AppState)
    ensures EndsWith(Name(s), "_loading") <==> s in {FilesLoading, SummariesLoading, CodeLoading, PrLoading}
  {
    var n := Name(s);
    match s
    case Initial => assert |n| < |"_loading"|;
    case FilesLoading => assert n[|n| - 8..] == "_loading";
    case FilesLoaded => assert n[|n| - 8..][7] == 'd';
    case SummariesLoading => assert n[|n| - 8..] == "_loading";
    case SummariesLoaded => assert n[|n| - 8..][7] == 'd';
    case CodeLoading => assert n[|n| - 8..] == "_loading";
    case CodeLoaded => assert n[|n| - 8..][7] == 'd';
    case PrLoading => assert n[|n| - 8..] == "_loading";
    case PrCreated => assert n[|n| - 8..][7] == 'd';
    case Error => assert |n| < |"_loading"|;
  }

  /** `isLoading`: the stage name ends in `_loading`.  This holds for exactly
      the four stages in which a remote action is in flight. */
  predicate IsLoading(s: AppState)
    ensures IsLoading(s) <==> s in {FilesLoading, SummariesLoading, CodeLoading, PrLoading}
  {
    LoadingNames(s);
    EndsWith(Name(s), "_loading")
  }

  /** The four remote actions, each driven by one button and one handler. */
  datatype Action = LoadFiles | GenerateSummaries | GenerateCode | CreatePr

  /** The stage a handler enters before it awaits its action. */
  function LoadingStage(a: Action): (r: AppState)
    ensures IsLoading(r)
  {
    match a
    case LoadFiles => FilesLoading
    case GenerateSummaries => SummariesLoading
    case GenerateCode => CodeLoading
    case CreatePr => PrLoading
  }
}
