# TestGenius workflow controller, in Dafny

TestGenius is a web page. It lists the source files of a GitHub repository and
asks a language model for test-case summaries of the files the user picks. It
then generates test code for one chosen summary and class name, and opens a
pull request that adds this code. All of its behaviour lives in the `Home` page
component (`src/app/page.tsx`). That component holds the session state: the
inputs, the listed files, the selected paths, the summaries, the chosen summary,
the generated code, the PR URL, the stage (`AppState`) and the error text.
Four handlers move it through the stages. Each one enters a `*_loading` stage,
awaits one remote action, and then either stores the result and enters the
matching done stage (`files_loaded`, `summaries_loaded`, `code_loaded` or
`pr_created`), or goes through `handleError` to `error`. Three of them first check
a guard and do nothing when it fails. `handleLoadFiles` has no guard of its
own; only its button's `disabled` condition protects it. The model uses the
corrected `handleError` described under "## Findings", which always reaches
`error`. As written, a failure with a non-JSON message never gets there.

The project has these modules:

- `Common` (common.dfy): `Option`, `EndsWith`/`StartsWith`, and splitting a
  string at its first `:`.
- `Stages` (stages.dfy): `AppState` with its string names, `isLoading`, and the
  four actions.
- `Files` (files.dfy): tree entries and the extension filter of
  `handleLoadFiles`, with the proof that it is an order-preserving filter.
- `Messages` (messages.dfy): the error message built by `handleError`, the
  default test filename and the commit message.
- `Workflow` (workflow.dfy): the session as a value, each handler's two halves
  as transition functions, and the button and input enable conditions. It also
  defines the page as an event machine (`Step`, `Run`) and proves the
  invariants and the stage-ordering results about every reachable state.
- `Page` (page.dfy): class `Home`. Its fields are the component's state
  variables. Its methods update them in place, and each method's postcondition
  ties the new state to the `Workflow` transition it performs.

Each handler is split at its `await`. `StartX` runs the guard and enters the
loading stage, and it returns the remote call it makes (`None` when the guard
fails, meaning that no call is made). `FinishX(outcome)` runs the rest, where
the outcome is `Succeeded(value)` or `Failed(error)`. The remote actions are
not modelled beyond these outcomes.

## Model

| member | source | states |
|---|---|---|
| `Stages.LoadingNames` | src/app/page.tsx:27 | of the ten stage names, exactly the four `*_loading` ones end in `_loading` |
| `Stages.IsLoading` | src/app/page.tsx:166 | the stage name ends in `_loading` exactly for the four stages where an action is in flight |
| `Files.CodeFiles` | src/app/page.tsx:73 | every listed entry is a blob with a `.java`/`.js`/`.py`/`.tsx`/`.ts` path taken from the tree, and the list is no longer than the tree |
| `Files.CodeFilesSubsequence` | src/app/page.tsx:73 | the listed entries keep the tree's order (the list is a subsequence of the tree) |
| `Files.CodeFilesCount` | src/app/page.tsx:73 | each code entry is kept as many times as it occurs in the tree, and every other entry is dropped |
| `Files.CodeFilesMembership` | src/app/page.tsx:73 | an entry is listed if and only if it is in the tree and passes the filter |
| `Files.CodeFilesIdempotent` | src/app/page.tsx:73 | filtering the listed entries again changes nothing |
| `Messages.DetailAsWritten` | src/app/page.tsx:58 | the detail is absent (the `JSON.parse(...)` expression throws) exactly when the error has a message and that message is not JSON text, or is the JSON text `null`; a message-less error gives `An unknown error occurred.`, and any other message gives what `JSON.parse(message).message` renders as |
| `Messages.Detail` | src/app/page.tsx:58 | the detail agrees with the as-written one whenever that one exists, and otherwise is the raw message |
| `Messages.ErrorTextIdentifiesAction` | src/app/page.tsx:59 | the stored error message can be read back as the failed handler's prefix, and the detail follows `": "` unchanged |
| `Messages.DefaultTestFileName` | src/app/page.tsx:114-116 | the filename is never empty; a set filename is kept; an empty one becomes exactly the class name followed by `Test.java` (prefix, suffix and length) |
| `Messages.DefaultTestFileNameStable` | src/app/page.tsx:114-116 | a second code generation does not overwrite the filename, whatever class name it uses |
| `Messages.CommitMessage` | src/app/page.tsx:134 | the commit message starts with `Feat: Add test case for ` and ends with the class name |
| `Messages.CommitMessageInjective` | src/app/page.tsx:134 | distinct class names give distinct commit messages |
| `Workflow.SelectFile` | src/app/page.tsx:46-54 | checking adds exactly `path` and unchecking removes exactly `path`; no other path and no other field changes |
| `Workflow.Fail` | src/app/page.tsx:56-60 | the stage becomes `error`, the message is `prefix: detail` and names the failed handler; files, selection, summaries, code and inputs stay |
| `Workflow.FailAsWritten` | src/app/page.tsx:56-60 | with a non-JSON message nothing changes at all; otherwise it equals `Fail` |
| `Workflow.StartLoadFiles` | src/app/page.tsx:68-72 | always enters `files_loading` with the error cleared and nothing else changed, and fetches the tree for `repoUrl` and `pat` |
| `Workflow.FinishLoadFiles` | src/app/page.tsx:72-78 | on success it lists exactly the filtered tree and enters `files_loaded`; on failure it is `Fail` with the listing prefix |
| `Workflow.StartGenerateSummaries` | src/app/page.tsx:81-90 | an empty selection changes nothing and calls nothing; otherwise it enters `summaries_loading` with the error cleared and passes the selection, `repoUrl` and `pat` |
| `Workflow.FinishGenerateSummaries` | src/app/page.tsx:90-95 | on success it stores the returned summaries unfiltered and enters `summaries_loaded`; on failure it is `Fail` |
| `Workflow.StartGenerateCode` | src/app/page.tsx:98-111 | without a truthy summary or with an empty class name, nothing changes and the model is not called; otherwise it enters `code_loading` and passes the selection, summary and class name |
| `Workflow.FinishGenerateCode` | src/app/page.tsx:111-119 | on success it stores the code and enters `code_loaded`; the filename becomes `<class>Test.java` exactly when it was empty; on failure it is `Fail` |
| `Workflow.StartCreatePr` | src/app/page.tsx:122-134 | empty code or an empty filename changes nothing; otherwise it enters `pr_loading` and passes the filename, the code and `"Feat: Add test case for " + class` |
| `Workflow.FinishCreatePr` | src/app/page.tsx:134-143 | on success it stores the returned URL and enters `pr_created`; on failure it is `Fail` |
| `Workflow.ResetState` | src/app/page.tsx:151-164 | whatever the state, the result is the state the page mounts with (src/app/page.tsx:30-43) |
| `Workflow.ResetStateIdempotent` | src/app/page.tsx:151-164 | resetting twice is the same as resetting once |
| `Workflow.DismissError` | src/app/page.tsx:197 | the error card's Start Over changes only the stage, to `initial`; inputs, data and error text stay |
| `Workflow.ButtonMatchesHandler` | src/app/page.tsx:220-341 | the Summaries, Code and PR buttons are enabled exactly when nothing is loading and the handler's own guard passes; Load Files is enabled exactly in `initial` with both inputs set; an enabled button always starts its action |
| `Workflow.LoadingDisablesButtons` | src/app/page.tsx:166-341 | while any action is in flight, none of the four action buttons is enabled |
| `Workflow.LoadingAcceptsOnlyResultOrStartOver` | src/app/page.tsx:178-341 | while an action is in flight, the page takes only that action's result and the header's Start Over; every input, checkbox and action button is disabled |
| `Workflow.StartKeepsStateInv` | src/app/page.tsx:68-134 | pressing an enabled button leads to a state that meets the invariant |
| `Workflow.FailKeepsStateInv` | src/app/page.tsx:56-60 | a failure from any loading stage lands in an `error` state that meets the invariant |
| `Workflow.StepKeepsStateInv` | src/app/page.tsx:178-344 | every event the rendered page accepts keeps the state invariant |
| `Workflow.RunKeepsStateInv` | src/app/page.tsx:178-344 | every reachable state meets the invariant: each loading stage holds its handler's precondition and an empty error text, `pr_*` stages hold non-empty code, and `error` holds a message that names the failed handler |
| `Workflow.StepGrowth` | src/app/page.tsx:68-143 | one event adds files or a selection only by a successful listing, summaries only by a successful summary generation, and code only by a successful code generation |
| `Workflow.FilesHistory` | src/app/page.tsx:68-78 | listed or selected files imply that `files_loaded` was reached earlier in the run |
| `Workflow.SummariesHistory` | src/app/page.tsx:81-95 | held or chosen summaries imply that `files_loaded` and then `summaries_loaded` were reached |
| `Workflow.CodeHistory` | src/app/page.tsx:98-119 | held code implies that `files_loaded`, `summaries_loaded` and `code_loaded` were reached in that order |
| `Workflow.CodeGenerationFollowsPipeline` | src/app/page.tsx:98-111 | from the first render, `code_loading` is reached only with a chosen summary and a class name, after `files_loaded` and then `summaries_loaded` |
| `Workflow.PullRequestFollowsPipeline` | src/app/page.tsx:122-136 | `pr_loading` or `pr_created` are reached only with non-empty code, after the three earlier loaded stages in order |
| `Workflow.NonJsonErrorLeavesPageLoading` | src/app/page.tsx:56-60 | as written, a failure with message `fetch failed` leaves the page in its loading stage with every action button disabled; only the header Start Over, which clears everything, gets out |
| `Workflow.FailAlwaysLeavesLoading` | src/app/page.tsx:56-60 | the corrected handler always leaves the loading stage, and agrees with the as-written one wherever that one changes the state |
| `Page.Home.constructor` | src/app/page.tsx:30-43 | the fields start at the `useState` initial values and meet the invariant |
| `Page.Home.SelectFile` | src/app/page.tsx:46-54 | updates the selection in place as `Workflow.SelectFile`, and keeps the invariant outside the loading stages (where the checkboxes are enabled) |
| `Page.Home.HandleError` | src/app/page.tsx:56-60 | sets the error message and stage as `Workflow.Fail` |
| `Page.Home.StartLoadFiles` | src/app/page.tsx:68-72 | the new fields and the returned call are those of `Workflow.StartLoadFiles` |
| `Page.Home.FinishLoadFiles` | src/app/page.tsx:72-78 | the new fields are those of `Workflow.FinishLoadFiles`, and the invariant is kept |
| `Page.Home.StartGenerateSummaries` | src/app/page.tsx:81-90 | the new fields and the call are those of `Workflow.StartGenerateSummaries` |
| `Page.Home.FinishGenerateSummaries` | src/app/page.tsx:90-95 | the new fields are those of `Workflow.FinishGenerateSummaries`, and the invariant is kept |
| `Page.Home.StartGenerateCode` | src/app/page.tsx:98-111 | the new fields and the call are those of `Workflow.StartGenerateCode` |
| `Page.Home.FinishGenerateCode` | src/app/page.tsx:111-119 | the new fields are those of `Workflow.FinishGenerateCode`, and the invariant is kept |
| `Page.Home.StartCreatePr` | src/app/page.tsx:122-134 | the new fields and the call are those of `Workflow.StartCreatePr` |
| `Page.Home.FinishCreatePr` | src/app/page.tsx:134-143 | the new fields are those of `Workflow.FinishCreatePr`, and the invariant is kept |
| `Page.Home.ResetState` | src/app/page.tsx:151-164 | the twelve field assignments give the state of `Workflow.ResetState`, which meets the invariant |
| `Page.Home.DismissError` | src/app/page.tsx:197 | only the stage changes, to `initial`, and the result meets the invariant |
| `Page.Home.Click` | src/app/page.tsx:220-341 | runs the first half of the handler wired to the pressed button; pressing an enabled button keeps the invariant |
| `Page.Home.Dispatch` | src/app/page.tsx:178-344 | performs `Workflow.Step` in place and keeps the invariant; it makes a remote call exactly when an enabled button is pressed, and that call is the handler's |

## Findings

| source | as written | input that shows it | evidently intended | confidence | as-written member | corrected member |
|---|---|---|---|---|---|---|
| src/app/page.tsx:58 | `handleError` runs `JSON.parse(error.message)` inside the `catch` block. A message that is not JSON makes it throw before `setErrorMessage` and `setAppState('error')`, so the page stays in its `*_loading` stage. Every action button stays disabled; only the header Start Over, which clears everything, gets out | a remote action that rejects with an `Error` whose message is `fetch failed` | the stage becomes `error` and the raw message is shown | medium, not executed | `Workflow.FailAsWritten`, shown by `Workflow.NonJsonErrorLeavesPageLoading` | `Workflow.Fail`, with `Workflow.FailAlwaysLeavesLoading` |

## Behaviour worth knowing (modelled as the code does it)

- The "Generate Test Summaries" button is enabled in any stage where nothing is
  loading and the selection is non-empty, including `summaries_loaded`,
  `code_loaded`, `pr_created` and `error`.
- The default filename is `<class>Test.java`, whatever language the selected
  files are in.
- When a handler's guard fails, the page shows a toast and changes no state.
- From `error`, the page can go back to `initial` through the error card's
  Start Over, which keeps all data, or through the header's Start Over, which
  clears everything. It can also retry: the Summaries, Code and PR buttons stay
  enabled in `error` whenever their handler's guard passes, and each goes
  straight to its `*_loading` stage. As long as each action's result arrives
  before the header's Start Over is pressed, the stage never goes from `error`
  straight back to a `*_loaded` stage. A late result can do that; see the
  asynchronous interleaving line under "## Left out".
- An empty summary list from the model is stored as is. It is not treated as a
  failure.
- Reloading files does not clear the selection, and regenerating summaries does
  not clear the chosen summary. So after a reload the selection may name paths
  that are no longer listed.

## Left out

- Rendering: the JSX layout, skeletons, scroll areas, icons and styling
  (src/app/page.tsx:168-361). Only the enable and visibility conditions of the
  controls are kept, in `Workflow.Accepted` and `Workflow.Enabled`.
- Toasts, `console.error` and `handleCopyCode`'s clipboard write
  (src/app/page.tsx:57, 61-65, 83, 100, 104, 124, 128, 137-140, 146-149). These
  are browser side effects with no effect on the state.
- `JSON.parse` itself. `Messages.ApiError` carries what it would return: the
  rendered `message` field, or `None` when it throws.
- The remote actions `fetchRepoFiles`, `generateSummariesAction`,
  `generateCodeAction` and `createPRAction`. `./actions` is not part of this
  model, and neither are the two Genkit flows under `src/ai/flows/`. They are
  represented only by the `Call` they receive and the `Outcome` they settle to.
- Asynchronous interleaving. Each start half and each finish half is one atomic
  step, and a finish half runs only while its loading stage is current (the
  `requires` of `Page.Home.FinishX`). In the source, the header's Start Over
  stays clickable while an action is in flight (src/app/page.tsx:178-182). A
  result that settles after it was pressed is still written by the pending
  handler (src/app/page.tsx:74-75, 91-92, 112-116, 135-136) on top of whatever
  state the page is in by then. The code handler also derives the filename
  from the class name and filename it captured when it started. The model
  drops such a late result, so these results hold only for runs without one:
  - the `StateInv` clause that `pr_loading` and `pr_created` hold non-empty
    code. Start Over during `pr_loading` followed by the PR result gives
    `pr_created` with empty code;
  - the first `ensures` of `Workflow.PullRequestFollowsPipeline`, for the same
    reason;
  - "at most one action in flight" (`Workflow.RunKeepsStateInv`,
    `Workflow.LoadingAcceptsOnlyResultOrStartOver`). After Start Over, a
    second action can start while the first is still pending;
  - "`error` never goes straight to a `*_loaded` stage". A listing left
    pending by Start Over can settle into `files_loaded` while a second
    listing's failure has put the page in `error`.
- The order of the selected paths. The source passes `Array.from` of the set,
  which is in insertion order. The model passes the set.
- The checkboxes are uncontrolled. Their visual checked state is not part of
  the page state, so it is not modelled.
- `Workflow.FinishLoadFiles`, `Workflow.FinishGenerateSummaries`,
  `Workflow.FinishGenerateCode` and `Workflow.FinishCreatePr` fail through the
  corrected handler `Workflow.Fail`, not through `handleError` as written; see
  "## Findings".
- `Page.Home.HandleError` and the four `Page.Home.FinishX` methods perform the
  corrected `Workflow.Fail` as well.
- `Workflow.Step` and `Workflow.Run`, and therefore the invariant and history
  lemmas, are about the page with the corrected handler. As written, a
  non-JSON failure leaves the page in its loading stage, and only the header's
  Start Over gets out (`Workflow.NonJsonErrorLeavesPageLoading`).
