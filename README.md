# Round-creation wizard rules (grants-stack round manager)

This project models the rule layer of the round-creation wizard of the
grants-stack round manager, in Dafny:

- **Round details step.** This covers the validation schema for the round name and the
  application/round dates. It also covers the shallow merge of the submitted values into the
  wizard's data, the step counter moving forward and back, and the "missing program" notice.
- **Application step.**
  - The five creation statuses (metadata storage, voting, payout and round contract
    deployment, indexing) and what they schedule: the redirect to the program page or the
    error modal.
  - The "Next" flag, the six-row progress list, and the heads-up modal that must be open
    before `createRound` is reached.
- **Project requirements.** The twitter/github `required`/`verification` record and the
  handler that folds `[platform, field, value]` updates into it in list order. The switches
  emit update lists that keep "verification only for a required account" true in every
  reachable state.
- **Application questions.** The locked payout question, the three default questions, and
  the save (append or replace at an index) and remove operations. The rendered rows are the
  locked question (key -1, no controls) followed by the list.

Modules: `Wrappers` (Option), `Requirements`, `ProjectSocials`, `ApplicationQuestions`,
`RoundApplicationForm`, `FormWizard` (the shared wizard context) and `RoundDetailForm`.
Component state that the source updates through React setters is a class whose fields the
methods reassign: `RoundApplicationForm.RoundApplicationFormState`,
`ApplicationQuestions.ApplicationQuestionsState` and `FormWizard.FormContext`. The rules
themselves are functions, with lemmas relating them.

Where the validation library's behaviour is not visible in the source, the model picks the
following:
- A name's length is its JavaScript `.length`: UTF-16 code units, so a character above U+FFFF
  counts twice.
- Dates are integers (milliseconds). A date `min` against a sibling field is inclusive.
- Comparing a present date with an absent sibling fails, as `d >= undefined` does in
  JavaScript.
- Each field reports its first failing rule, `required` before `min`.

## Model

| member | source | states |
|---|---|---|
| Requirements.InitialRequirements | packages/round-manager/src/features/round/RoundApplicationForm/RoundApplicationForm.tsx:27-36 | every platform/field of the initial requirements is false |
| Requirements.Apply | packages/round-manager/src/features/round/RoundApplicationForm/RoundApplicationForm.tsx:239-245 | one update sets its named sub-field to its value; the other sub-field of that platform and both sub-fields of the other platform are unchanged |
| Requirements.LastWrite | packages/round-manager/src/features/round/RoundApplicationForm/RoundApplicationForm.tsx:238-246 | the last write to a sub-field exists iff some update names that sub-field, and it is the value of the last such update |
| Requirements.ApplyAll | packages/round-manager/src/features/round/RoundApplicationForm/RoundApplicationForm.tsx:238-246 | after the in-order fold the last update's sub-field holds its value, and a sub-field no update names keeps its value |
| Requirements.ApplyAllLastWriteWins | packages/round-manager/src/features/round/RoundApplicationForm/RoundApplicationForm.tsx:236-248 | after folding a list of updates, each sub-field holds the value of the last update naming it (a later update wins); a sub-field no update names keeps its value |
| Requirements.ApplyAllConcat | packages/round-manager/src/features/round/RoundApplicationForm/RoundApplicationForm.tsx:236-248 | on successive renders (a re-render between handler calls), two handler calls have the same effect as one call on the concatenated update list |
| RoundApplicationForm.RoundApplicationFormState.ProjectRequirementsHandler | packages/round-manager/src/features/round/RoundApplicationForm/RoundApplicationForm.tsx:229-249 | the loop over a copy stores exactly the in-order fold of the updates: last write wins, unnamed sub-fields unchanged, nothing else in the component changes |
| RoundApplicationForm.RoundApplicationFormState.constructor | packages/round-manager/src/features/round/RoundApplicationForm/RoundApplicationForm.tsx:51-85 | all three modals start closed; the requirements start at `initialRequirements` |
| RoundApplicationForm.ScheduledEffects | packages/round-manager/src/features/round/RoundApplicationForm/RoundApplicationForm.tsx:96-140 | the 2000 ms redirect is scheduled iff all five statuses succeeded; the error modal iff storage or a deployment failed; the 5000 ms redirect iff indexing failed; at most one redirect, and no redirect with any other delay |
| RoundApplicationForm.IndexingErrorOnlyRedirects | packages/round-manager/src/features/round/RoundApplicationForm/RoundApplicationForm.tsx:118-131 | an indexing error with no other error schedules only the 5000 ms redirect and no error modal |
| RoundApplicationForm.SuccessExcludesErrorAndResubmit | packages/round-manager/src/features/round/RoundApplicationForm/RoundApplicationForm.tsx:97-131 | when the success redirect is scheduled, no error modal or error redirect is, and Next is disabled |
| RoundApplicationForm.ProgressSteps | packages/round-manager/src/features/round/RoundApplicationForm/RoundApplicationForm.tsx:184-218 | six rows named Storing, Deploying (three), Indexing, Redirecting; the first five carry the five statuses in order; "Redirecting" is in progress iff indexing succeeded, not started otherwise |
| RoundApplicationForm.DisableNext | packages/round-manager/src/features/round/RoundApplicationForm/RoundApplicationForm.tsx:220-227 | Next is disabled iff a status is in progress, indexing succeeded, or there is no program |
| RoundApplicationForm.DisableNextIffProgressShowsWork | packages/round-manager/src/features/round/RoundApplicationForm/RoundApplicationForm.tsx:184-227 | Next is disabled iff there is no program or some row of the progress list (Redirecting included) is in progress |
| RoundApplicationForm.RoundApplicationFormState.Next | packages/round-manager/src/features/round/RoundApplicationForm/RoundApplicationForm.tsx:142-148 | with the heads-up modal closed a submit only opens it; `createRound` is reached (and the progress modal opened) iff the heads-up modal was already open |
| RoundApplicationForm.RoundApplicationFormState.OpenErrorModalOnFailure | packages/round-manager/src/features/round/RoundApplicationForm/RoundApplicationForm.tsx:118-127 | the error modal becomes open iff it was open or storage or a deployment failed; nothing else changes |
| RoundApplicationForm.RoundApplicationFormState.ErrorModalDone | packages/round-manager/src/features/round/RoundApplicationForm/RoundApplicationForm.tsx:270-274 | the error modal's done action closes all three modals |
| RoundApplicationForm.DefaultQuestions | packages/round-manager/src/features/round/RoundApplicationForm/RoundApplicationForm.tsx:66-68 | saved questions are used when present (even an empty list); otherwise exactly `initialQuestions` |
| ProjectSocials.RequiredSwitch | packages/round-manager/src/features/round/RoundApplicationForm/ProjectSocials.tsx:30-36 | a required switch emits two updates of its own platform, in this order: required := a, then verification := false |
| ProjectSocials.VerificationSwitch | packages/round-manager/src/features/round/RoundApplicationForm/ProjectSocials.tsx:51-53 | a verification switch emits one update, of its platform's verification only |
| ProjectSocials.Emitted | packages/round-manager/src/features/round/RoundApplicationForm/ProjectSocials.tsx:40-57 | every emitted update names the switch's own platform; a required toggle emits the required-switch list; a shown verification switch emits its single update; a verification switch of a non-required platform is not rendered and emits nothing |
| ProjectSocials.VerificationSwitchShown | packages/round-manager/src/features/round/RoundApplicationForm/ProjectSocials.tsx:40-57 | the verification switch is shown iff its platform is required; in a consistent state a verification that is on is always shown, so it can be switched off |
| ProjectSocials.SwitchLeavesOtherPlatform | packages/round-manager/src/features/round/RoundApplicationForm/ProjectSocials.tsx:30-98 | any twitter switch leaves both github fields unchanged, and vice versa |
| ProjectSocials.RequiredSwitchEffect | packages/round-manager/src/features/round/RoundApplicationForm/ProjectSocials.tsx:30-36 | after a required switch set to `a`, required is `a` and verification is false |
| ProjectSocials.VerificationSwitchEffect | packages/round-manager/src/features/round/RoundApplicationForm/ProjectSocials.tsx:51-53 | after a verification switch set to `a`, verification is `a` and required is unchanged |
| ProjectSocials.EmittedKeepsConsistent | packages/round-manager/src/features/round/RoundApplicationForm/ProjectSocials.tsx:30-98 | every user action preserves "verification implies required" on both platforms |
| ProjectSocials.ReachableIsConsistent | packages/round-manager/src/features/round/RoundApplicationForm/ProjectSocials.tsx:30-98 | every state reached from the initial requirements by any sequence of switch actions satisfies "verification implies required" |
| ProjectSocials.HiddenSwitchMatters | packages/round-manager/src/features/round/RoundApplicationForm/ProjectSocials.tsx:40-57 | without the display rule, a verification update on a non-required platform would break the invariant |
| ApplicationQuestions.PayoutQuestion | packages/round-manager/src/features/round/RoundApplicationForm/ApplicationQuestions.tsx:33-40 | the locked question has id 0, title "Payout Wallet Address", type address, and is required, hidden and not encrypted |
| ApplicationQuestions.InitialQuestions | packages/round-manager/src/features/round/RoundApplicationForm/ApplicationQuestions.tsx:41-66 | three required defaults with ids 1, 2, 3; Email is encrypted and hidden; Funding Sources and Team Size are neither |
| ApplicationQuestions.AddOrEdit | packages/round-manager/src/features/round/RoundApplicationForm/ApplicationQuestions.tsx:184-193 | no question leaves the list unchanged; no index appends with id = old length and keeps earlier entries; an index (0 included) replaces that entry and keeps length and the others |
| ApplicationQuestions.AppendToDefaultsRepeatsId | packages/round-manager/src/features/round/RoundApplicationForm/ApplicationQuestions.tsx:41-66 | appending to the untouched defaults gives id 3, the id Team Size already has: ids are not unique |
| ApplicationQuestions.RemoveAt | packages/round-manager/src/features/round/RoundApplicationForm/ApplicationQuestions.tsx:140-147 | removing at a key shortens the list by one and keeps the others in order |
| ApplicationQuestions.RemoveAtLosesOne | packages/round-manager/src/features/round/RoundApplicationForm/ApplicationQuestions.tsx:140-147 | the removed list plus the removed question is the old list as a multiset |
| ApplicationQuestions.Rows | packages/round-manager/src/features/round/RoundApplicationForm/ApplicationQuestions.tsx:173-197 | the locked question with key -1 comes first, then each list entry with its index as key |
| ApplicationQuestions.ControlsTargetTheirOwnQuestion | packages/round-manager/src/features/round/RoundApplicationForm/ApplicationQuestions.tsx:124-147 | edit/remove controls appear on every row except the locked one; their key is a valid index that holds that row's question |
| ApplicationQuestions.ApplicationQuestionsState.constructor | packages/round-manager/src/features/round/RoundApplicationForm/ApplicationQuestions.tsx:168-171 | the list starts as the given questions, the add/edit modal closed and nothing being edited |
| ApplicationQuestions.ApplicationQuestionsState.AddOrEditQuestion | packages/round-manager/src/features/round/RoundApplicationForm/ApplicationQuestions.tsx:184-193 | the modal closes in every case and the list becomes `AddOrEdit` of the old list |
| ApplicationQuestions.ApplicationQuestionsState.RemoveQuestion | packages/round-manager/src/features/round/RoundApplicationForm/ApplicationQuestions.tsx:140-146 | the list becomes the old list without the entry at that key |
| ApplicationQuestions.ApplicationQuestionsState.OpenEdit | packages/round-manager/src/features/round/RoundApplicationForm/ApplicationQuestions.tsx:124-133 | the pencil opens the modal on the entry at its key |
| ApplicationQuestions.ApplicationQuestionsState.OpenAdd | packages/round-manager/src/features/round/RoundApplicationForm/ApplicationQuestions.tsx:198-205 | the add button opens a blank modal |
| ApplicationQuestions.ApplicationQuestionsState.CloseModal | packages/round-manager/src/features/round/RoundApplicationForm/ApplicationQuestions.tsx:213-216 | closing clears the question being edited and closes the modal |
| RoundDetailForm.NameError | packages/round-manager/src/features/round/RoundDetailForm.tsx:16-19 | the name passes iff present with a JavaScript length (UTF-16 code units) of at least 8; absent or empty gives "This field is required."; present, non-empty and shorter than 8 gives "Round name must be less that 8 characters." |
| RoundDetailForm.Utf16Length | packages/round-manager/src/features/round/RoundDetailForm.tsx:19 | the length the `min(8)` rule measures lies between the number of characters and twice that |
| RoundDetailForm.Utf16LengthBasic | packages/round-manager/src/features/round/RoundDetailForm.tsx:19 | for a name without characters above U+FFFF the measured length is the number of characters |
| RoundDetailForm.FourAstralCharacterNameAccepted | packages/round-manager/src/features/round/RoundDetailForm.tsx:19 | a name of four characters above U+FFFF measures 8 and passes the length rule |
| RoundDetailForm.MinDateError | packages/round-manager/src/features/round/RoundDetailForm.tsx:28-29 | an optional date passes iff absent or not earlier than its bound |
| RoundDetailForm.RequiredDateError | packages/round-manager/src/features/round/RoundDetailForm.tsx:21 | a required date passes iff present; its only error is "This field is required." |
| RoundDetailForm.RequiredMinDateError | packages/round-manager/src/features/round/RoundDetailForm.tsx:22-27 | the start time passes iff present and not earlier than the application start time; absent gives "This field is required.", present and failing gives the bound's own message |
| RoundDetailForm.Validate | packages/round-manager/src/features/round/RoundDetailForm.tsx:15-30 | no error iff the name has at least 8 UTF-16 code units, the application and round start are given, application start <= start, and start <= end when end is given; errors only on the four schema paths |
| RoundDetailForm.MessagesAt | packages/round-manager/src/features/round/RoundDetailForm.tsx:73 | a path has messages iff some error is filed under it |
| RoundDetailForm.MessagesAtConcat | packages/round-manager/src/features/round/RoundDetailForm.tsx:15-30 | the messages under a path of two joined error lists are the two lists of messages joined |
| RoundDetailForm.ErrorAt | packages/round-manager/src/features/round/RoundDetailForm.tsx:15-30 | one field's errors: under its own path exactly its rule's message (or nothing), under every other path nothing |
| RoundDetailForm.ValidateFilesEachField | packages/round-manager/src/features/round/RoundDetailForm.tsx:15-30 | under each of the four paths the messages are exactly that field's first failing rule's message |
| RoundDetailForm.ValidateFlagsFailingFields | packages/round-manager/src/features/round/RoundDetailForm.tsx:15-30 | each of the four fields shows an error iff its own condition fails (name length, application start present, start present and after application start, end absent or after start) |
| RoundDetailForm.SevenCharacterNameRefused | packages/round-manager/src/features/round/RoundDetailForm.tsx:19 | a 7-character name is refused with the length message, although that message says "less that 8" |
| RoundDetailForm.Merge | packages/round-manager/src/features/round/RoundDetailForm.tsx:43 | submitted keys take the submitted value, unsubmitted keys keep theirs, no key is lost |
| RoundDetailForm.MergeIdempotent | packages/round-manager/src/features/round/RoundDetailForm.tsx:43 | submitting the same values twice gives the same data as once |
| RoundDetailForm.Next | packages/round-manager/src/features/round/RoundDetailForm.tsx:42-46 | the wizard data becomes the merge and the step advances by exactly one |
| RoundDetailForm.Prev | packages/round-manager/src/features/round/RoundDetailForm.tsx:47 | the step moves back by exactly one and the data is kept |
| RoundDetailForm.Submit | packages/round-manager/src/features/round/RoundDetailForm.tsx:35-46 | values are validated first; `next` runs iff there is no error, otherwise the wizard is unchanged |
| RoundDetailForm.ShowsMissingProgram | packages/round-manager/src/features/round/RoundDetailForm.tsx:55 | the notice is shown iff the program id is absent or empty, or the fetch completed without a program |
| FormWizard.FormContext.SetFormData | packages/round-manager/src/features/round/RoundDetailForm.tsx:44 | the wizard data becomes the given data |
| FormWizard.FormContext.SetCurrentStep | packages/round-manager/src/features/round/RoundDetailForm.tsx:45 | the step becomes the given step |

## Left out

- The quadratic-funding matching computation (`linearQF` in
  packages/grant-explorer/src/features/common/MatchingEstimations.tsx) comes from an external package.
  Its source is not part of this model.
- Rendering, React hooks, navigation, the `setTimeout` delays (only their lengths are kept), and
  the delay before the error modal opens.
- Logging, `Date.now`, `generateApplicationSchema` and the body of `createRound` are not
  modelled. `createRound` is reduced to "called or not".
- lodash `_.merge` of the form data before `createRound` is not modelled.
- Requirements.ApplyAllConcat: the handler at RoundApplicationForm.tsx:236-248 folds over the
  requirements captured at the last render; the model reads the current field, i.e. it assumes a
  re-render between handler calls (one call per switch event, ProjectSocials.tsx:30-36).
- Validation library internals: type coercion of dates and strings, and invalid dates.
- RoundApplicationForm's own `prev` is the same `setCurrentStep(currentStep - 1)` as
  `RoundDetailForm.Prev`.
- ApplicationQuestions.ApplicationQuestionsState.AddOrEditQuestion and RemoveQuestion require an
  in-range index. The controls only pass the keys 0..n-1 of rendered rows, so out-of-range calls
  of the form library's `update` and `remove` are not modelled.
- The JavaScript truthiness of an edit index (`NaN`, `null`) is reduced to present/absent.
- The question's input type is kept as its name (a string). The full `InputType` union is not
  part of this model.
