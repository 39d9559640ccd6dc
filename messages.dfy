/** The texts the page builds: error messages (`handleError`), the default
    test filename and the pull request's commit message. */
module Messages {
  import opened Common
  import opened Stages

  /** The prefix each handler passes to `handleError`. */
  function FailurePrefix(a: Action): string
  {
    match a
    case LoadFiles => "Failed to load repository files"
    case GenerateSummaries => "Failed to generate test summaries"
    case GenerateCode => "Failed to generate test code"
    case CreatePr => "Failed to create Pull Request"
  }

  /** What `handleError` shows when the error carries no message. */
  const UnknownError := "An unknown error occurred."

  /** An error thrown by a remote action. `message` is its `message` property
      (`""` when absent or empty, both falsy). `parsed` is what
      `JSON.parse(message).message` renders as in a template string: `Some(m)`
      when that expression has a value, `None` when it throws, that is when
      `message` is not JSON text or is the JSON text `null` (reading
      `.message` of `null` throws). */
  datatype ApiError = ApiError(message: string, parsed: Option<string>)

  /** The detail `handleError` extracts, as written: `None` stands for the
      `JSON.parse` call throwing out of the catch block, so that no detail
      (and no state change) is produced at all. */
  function DetailAsWritten(e: ApiError): (r: Option<string>)
    ensures r.None? <==> e.message != "" && e.parsed.None?
    ensures e.message == "" ==> r == Some(UnknownError)
    ensures e.message != "" ==> r == e.parsed
  {
    if e.message == "" then Some(UnknownError) else e.parsed
  }

  /** The detail with the parse failure handled: the raw message is shown
      when it is not JSON. */
  function Detail(e: ApiError): (r: string)
    ensures DetailAsWritten(e).Some? ==> r == DetailAsWritten(e).value
    ensures DetailAsWritten(e).None? ==> r == e.message
  {
    if e.message == "" then UnknownError
    else match e.parsed
      case Some(m) => m
      case None => e.message
  }

  /** `${prefix}: ${detail}` */
  function ErrorText(prefix: string, detail: string): string
  {
    prefix + ": " + detail
  }

  /** Reads back which handler failed from an error message. */
  function FailedAction(msg: string): (r: Option<Action>)
    ensures r.Some? ==> StartsWith(msg, FailurePrefix(r.value) + ":")
  {
    var head := Before(msg, ':');
    if |head| == |msg| then None
    else if head == FailurePrefix(LoadFiles) then Some(LoadFiles)
    else if head == FailurePrefix(GenerateSummaries) then Some(GenerateSummaries)
    else if head == FailurePrefix(GenerateCode) then Some(GenerateCode)
    else if head == FailurePrefix(CreatePr) then Some(CreatePr)
    else None
  }

  /** The message `handleError` stores names the handler that failed, and the
      detail follows the prefix unchanged, whatever the detail says. */
  lemma ErrorTextIdentifiesAction(a: Action, detail: string)
    ensures FailedAction(ErrorText(FailurePrefix(a), detail)) == Some(a)
    ensures ErrorText(FailurePrefix(a), detail)[|FailurePrefix(a)| + 2..] == detail
  {
    var p := FailurePrefix(a);
    assert ':' !in p;
    assert ErrorText(p, detail) == p + [':'] + ([' '] + detail);
    BeforeJoin(p, ':', [' '] + detail);
  }

  /** The filename `handleGenerateCode` settles on: the current one when it
      is set, otherwise `${primaryClassName}Test.java`. */
  function DefaultTestFileName(className: string, current: string): (r: string)
    ensures r != ""
    ensures current != "" ==> r == current
    ensures current == "" ==> StartsWith(r, className) && EndsWith(r, "Test.java")
                              && |r| == |className| + |"Test.java"|
  {
    if current == "" then
      EndsWithConcat(className, "Test.java");
      className + "Test.java"
    else current
  }

  /** A filename, once derived or typed, is not overwritten by a later code
      generation, whatever class name that one uses. */
  lemma DefaultTestFileNameStable(c1: string, c2: string, current: string)
    ensures DefaultTestFileName(c2, DefaultTestFileName(c1, current)) == DefaultTestFileName(c1, current)
  {
  }

  const CommitPrefix := "Feat: Add test case for "

  /** `Feat: Add test case for ${primaryClassName}` */
  function CommitMessage(className: string): (r: string)
    ensures StartsWith(r, CommitPrefix) && EndsWith(r, className)
    ensures |r| == |CommitPrefix| + |className|
  {
    EndsWithConcat(CommitPrefix, className);
    CommitPrefix + className
  }

  /** Distinct class names give distinct commit messages. */
  lemma CommitMessageInjective(c1: string, c2: string)
    requires CommitMessage(c1) == CommitMessage(c2)
    ensures c1 == c2
  {
  }
}
