# StrideIQ onboarding progress, as a verified Dafny model

StrideIQ is a React Native fitness app. A new user walks through about a dozen
onboarding screens. Each screen asks for one thing, such as a name, a gender, a
birth date, a weight, a height or medical conditions. The answers are kept in a
Redux store, sent to a REST backend, and restored when the user signs in again.
This project models that onboarding-progress subsystem and proves properties of
it. It also models the code around it:

- the root layout's sign-in and routing logic;
- the other Redux slices (auth, profile, devices, recommendations);
- the HealthKit upload pipeline;
- the settings screens (account information, change password, contact methods);
- the notification list.

How the model is built:

- Redux slices are classes. Each reducer is a method with a `modifies` clause,
  and its `ensures` gives the whole new state.
- Async thunks are methods that take the onboarding store and an `Api.ApiClient`.
- The client records every request in its `log`. A fixed oracle
  `outcome: nat -> bool` answers whether the n-th request succeeds. Each thunk
  is specified by a function that gives the requests it sends and the saved
  steps it leaves behind (`SaveRequests`/`SavedAfter`, `SyncLog`/`SyncSaved`,
  `GoNextRequests`/`GoNextSaved`). Lemmas about those functions state what the
  code promises.
- Screens are classes that hold a `UseOnboarding.OnboardingController`, the
  model of the `useOnboarding` hook, plus their own local state.
- JavaScript string built-ins have their own module, `JsText`: `trim`,
  `toLowerCase`, `includes`, `parseInt`, `Number()` on decimal text, `split`
  and `padStart`. A NaN result is modelled as `None`.
- `new Date(y, m, d)` is modelled in `DateText`, including its month and day
  roll-over and the mapping of years 0-99 to 1900-1999.

The model follows the code as written. Several properties proved here show
where the code does not line up with its own comments:

- The critical-step list `[1, 2, 3, 5, 9]` is commented "Name, Gender,
  Birthday, Medical, Final". In the step registry, however, step 5 is the
  height screen, step 8 is the medical screen and step 9 is the fitness-status
  screen. `OnboardingThunks.CriticalStepsAgainstRegistry` states this.
- `saveStepData` numbers its cases 4 = goals, 5 = medical conditions and
  7 = weight. The registry says 4 = weight, 5 = height and 7 = fitness. So
  leaving the height screen sends the saved medical conditions
  (`HeightScreen.HeightStepSavesMedicalConditions`). Leaving the weight and
  fitness screens saves nothing through the step switch
  (`WeightScreen.WeightStepSavesNothing`, `FitnessScreen.FitnessStepSavesNothing`).
- The API client turns every failure into a `success: false` envelope and never
  throws. So `saveStepData` always fulfils with `success: true`
  (`OnboardingThunks.SaveStepData`). The "Save Failed / Retry / Skip" branch of
  the screens is therefore never taken (`UseOnboarding.OnboardingController.SaveCriticalData`
  ensures `ok`). The rejection path is still modelled, by
  `OnboardingThunks.OutcomeOnException` and `ScreenGate.AfterSave`.
- The medical screen posts the selected condition ids directly. It never writes
  `medicalConditions` into the store (`MedicalScreen.MedicalScreen.HandleSubmit`).
- The numeric-input sanitiser removes only the last of several dots
  (`NumericInput.SanitizeKeepsTwoOfThreeDots`). Such input is then rejected by
  `isValidNumber`.

## Model

| member | source | states |
|---|---|---|
| Api.ApiClient.Send | src/store/thunks/onboardingThunks.ts:60-63 | a request is appended to the log, and its success is the oracle's answer for its position |
| Api.ApiClient.SetToken | src/store/slices/authSlice.ts:51 | the client's bearer token becomes the given one |
| OnboardingSlice.AddOnce | src/store/slices/onboardingSlice.ts:85-87 | the step is present afterwards, and the old list is an unchanged prefix; the list grows by one exactly when the step was absent |
| OnboardingSlice.AddOnceMembers | src/store/slices/onboardingSlice.ts:99-103 | membership after `includes`-then-`push` is the old members plus the step; a duplicate-free list stays duplicate-free |
| OnboardingSlice.AddOnceIdempotent | src/store/slices/onboardingSlice.ts:99-103 | marking the same step saved twice is the same as marking it once |
| OnboardingSlice.Merge | src/store/slices/onboardingSlice.ts:95 | object spread: the keys are the union, payload values win, and untouched keys keep their old values |
| OnboardingSlice.MovesKeepBounds | src/store/slices/onboardingSlice.ts:73-91 | any sequence of next, previous and skip moves keeps the cursor within 1..totalSteps |
| OnboardingSlice.NextMovesReach | src/store/slices/onboardingSlice.ts:73-77 | n next moves from step c reach min(c + n, totalSteps) |
| OnboardingSlice.OnboardingStore.constructor | src/store/slices/onboardingSlice.ts:54-64 | the initial state: step 1 of 9, nothing saved, skipped, pending or loading |
| OnboardingSlice.OnboardingStore.SetCurrentStep | src/store/slices/onboardingSlice.ts:70-72 | the cursor is set to the payload, with no bounds check |
| OnboardingSlice.OnboardingStore.NextStep | src/store/slices/onboardingSlice.ts:73-77 | the cursor advances only while below totalSteps, and the bounds invariant is preserved |
| OnboardingSlice.OnboardingStore.PreviousStep | src/store/slices/onboardingSlice.ts:78-82 | the cursor goes back only while above 1, and the bounds invariant is preserved |
| OnboardingSlice.OnboardingStore.SkipStep | src/store/slices/onboardingSlice.ts:83-91 | the step is recorded once among the skipped steps, the cursor advances as for next, and the bounds invariant is preserved |
| OnboardingSlice.OnboardingStore.UpdateFormData | src/store/slices/onboardingSlice.ts:94-97 | the form data is merged with the payload, and a sync becomes pending |
| OnboardingSlice.OnboardingStore.MarkStepSaved | src/store/slices/onboardingSlice.ts:99-106 | the step is recorded once among the saved steps, the save time is stamped, and the pending flag clears |
| OnboardingSlice.OnboardingStore.SetSyncPending | src/store/slices/onboardingSlice.ts:108-110 | the pending flag takes the payload |
| OnboardingSlice.OnboardingStore.SetLoading | src/store/slices/onboardingSlice.ts:112-114 | the loading flag takes the payload |
| OnboardingSlice.OnboardingStore.SetError | src/store/slices/onboardingSlice.ts:116-118 | the error takes the payload |
| OnboardingSlice.OnboardingStore.CompleteOnboarding | src/store/slices/onboardingSlice.ts:120-124 | completed, cursor on the last step, nothing pending |
| OnboardingSlice.OnboardingStore.ResetOnboarding | src/store/slices/onboardingSlice.ts:125-133 | back to step 1 with empty form, skipped and saved lists; totalSteps and lastSavedAt survive |
| OnboardingSlice.OnboardingStore.SetTotalSteps | src/store/slices/onboardingSlice.ts:134-136 | totalSteps takes the payload |
| OnboardingSlice.OnboardingStore.RestoreFulfilled | src/store/slices/onboardingSlice.ts:139-144 | a restore sets only the cursor and the completed flag, never the form data |
| OnboardingThunks.BackendStep | src/store/thunks/onboardingThunks.ts:18-30 | a backend stage exists exactly for steps 1..11 |
| OnboardingThunks.ScreenFor | src/store/thunks/onboardingThunks.ts:33-45 | a screen route exists exactly for steps 1..11 |
| OnboardingThunks.RegistriesShareDomain | src/store/thunks/onboardingThunks.ts:18-45 | the two registries are defined on the same steps |
| OnboardingThunks.ScreensAreDistinct | src/store/thunks/onboardingThunks.ts:33-45 | the step-to-screen registry is injective, so a route identifies its step |
| OnboardingThunks.BackendStagesShared | src/store/thunks/onboardingThunks.ts:18-30 | only steps 1-3, 6-7 and 8-9 share a backend stage, and step 11 is "completed" |
| OnboardingThunks.CriticalStepsAgainstRegistry | src/store/thunks/onboardingThunks.ts:13 | critical step 5 is the height screen and critical step 9 is fitness-status, while the medical screen (8) is not critical |
| OnboardingThunks.ProgressRequests | src/store/thunks/onboardingThunks.ts:53-63 | updateCurrentStep sends one progress PUT exactly for registered steps, carrying the backend stage and the step as text |
| OnboardingThunks.ProgressCarriesStep | src/store/thunks/onboardingThunks.ts:62 | the frontend step sent as text parses back to the step |
| OnboardingThunks.UpdateCurrentStep | src/store/thunks/onboardingThunks.ts:49-73 | the log grows by exactly the progress requests, and the thunk fulfils with the step whatever the reply |
| OnboardingThunks.StepDataRequest | src/store/thunks/onboardingThunks.ts:88-139 | a data request exists exactly when the switch case for the step finds its fields truthy |
| OnboardingThunks.DataStepsOnly | src/store/thunks/onboardingThunks.ts:88-139 | only steps 1, 2, 3, 4, 5 and 7 can send data; step 1 needs both names; steps 8 and 9 send nothing |
| OnboardingThunks.SaveRequests | src/store/thunks/onboardingThunks.ts:88-161 | a save sends at most two requests, and none exactly when the step has no data request |
| OnboardingThunks.OutcomeOnException | src/store/thunks/onboardingThunks.ts:164-173 | after an exception, critical steps reject (with the error message when there is one) and other steps fulfil with success false and allowProgress |
| OnboardingThunks.SaveStepData | src/store/thunks/onboardingThunks.ts:76-177 | the whole store becomes `SavedState`: saved steps follow `SavedAfter`, a save that marks the step stamps it and clears pending, loading ends and the error is cleared, and every other field is kept; the log follows `SaveRequests`, and the result is always `success: true` |
| OnboardingThunks.SaveNeverReportsFailure | src/store/thunks/onboardingThunks.ts:141-163 | a step with no data request is never marked saved, and a successful save also sends a progress PUT when the step is registered |
| OnboardingThunks.MedicalStepNeedsOnlyTheKey | src/store/thunks/onboardingThunks.ts:123-130 | step 5 posts the medical conditions array whenever the key is present, even an empty array |
| OnboardingThunks.FilteredMembers | src/store/thunks/onboardingThunks.ts:195-197 | the filter keeps exactly the listed steps not after the cursor and not yet saved |
| OnboardingThunks.FilteredAscending | src/store/thunks/onboardingThunks.ts:195-197 | filtering keeps an ascending list ascending |
| OnboardingThunks.UnsavedCriticalSteps | src/store/thunks/onboardingThunks.ts:195-197 | the unsaved critical steps up to the cursor, in ascending order |
| OnboardingThunks.SyncLog | src/store/thunks/onboardingThunks.ts:199-201 | the sync loop only appends to the request log |
| OnboardingThunks.SyncSavedExtends | src/store/thunks/onboardingThunks.ts:199-201 | the sync loop only appends to the saved steps |
| OnboardingThunks.SyncSavedMembers | src/store/thunks/onboardingThunks.ts:199-201 | every step saved by the sync loop was already saved or is one of the steps it visited |
| OnboardingThunks.UnmarkedSyncSavesNothing | src/store/thunks/onboardingThunks.ts:199-201 | when no save of the sync loop marks its step, the saved steps are unchanged |
| OnboardingThunks.SaveInOrder | src/store/thunks/onboardingThunks.ts:199-201 | saving the steps one after another gives `SyncLog` and `SyncSaved`; the stamp is set and pending cleared exactly when some save marks its step (`SyncMarks`), and otherwise both are kept; loading ends and the error clears once a step was saved; cursor, skipped steps and form data are kept |
| OnboardingThunks.SyncPendingData | src/store/thunks/onboardingThunks.ts:181-210 | with nothing pending, nothing happens; otherwise the unsaved critical steps are saved in order as `SaveInOrder` states, the stamp follows `SyncMarks`, pending ends false, and loading and the error end cleared when a step was saved; cursor, skipped steps and form data are kept |
| OnboardingThunks.SyncFromFinalStep | src/store/thunks/onboardingThunks.ts:195-197 | from step 9 with nothing saved, the sync loop visits the critical steps 1, 2, 3, 5 and 9, in that order, and dispatches one save for each |
| OnboardingThunks.ResumeStep | src/store/thunks/onboardingThunks.ts:311-319 | a stored step is resumed exactly when it is non-empty text that parseInt reads as a registered, non-zero step |
| OnboardingThunks.RestoreFromStatus | src/store/thunks/onboardingThunks.ts:296-335 | rejected exactly when the envelope fails or has no data; otherwise the route is the registry's route for the step, with step 1 / name-screen as the fallback |
| OnboardingThunks.RestoreResumesHeartbeat | src/store/thunks/onboardingThunks.ts:62 | a status carrying the step text that updateCurrentStep sent resumes at that step and its screen |
| OnboardingThunks.RestoreFallsBackOnZero | src/store/thunks/onboardingThunks.ts:315 | "0" does not resume |
| OnboardingThunks.RestoreFallsBackOnTwelve | src/store/thunks/onboardingThunks.ts:315 | "12", the removed device step, does not resume |
| OnboardingThunks.RestoreFallsBackOnText | src/store/thunks/onboardingThunks.ts:313-315 | non-numeric text does not resume |
| OnboardingThunks.RestoreProgress | src/store/thunks/onboardingThunks.ts:286-343 | one status GET is sent and the outcome is `RestoreFromStatus` of the reply; the store becomes `RestoredState`: loading ends and the error is cleared on every path, a fulfilled restore moves the cursor and sets completion, a rejection leaves both, and nothing else changes |
| OnboardingThunks.SubmitRequests | src/store/thunks/onboardingThunks.ts:255-270 | profile, goals and weight requests are sent exactly when their field is present, and the complete POST is always last |
| OnboardingThunks.SubmitOnboarding | src/store/thunks/onboardingThunks.ts:213-283 | the log grows by `SubmitRequests`, and the store ends completed on the last step with loading false, no error and nothing pending; form data, saved steps, skipped steps and the save stamp are kept |
| UseOnboarding.SaveTarget | src/hooks/useOnboarding.ts:85 | `stepNumber \|\| currentStep`: an absent or zero argument falls back to the cursor |
| UseOnboarding.GateAnswer | src/hooks/useOnboarding.ts:86-95 | non-critical steps answer true, and critical steps answer whether the save fulfilled |
| UseOnboarding.GateBlocksOnlyOnException | src/hooks/useOnboarding.ts:86-95 | a critical step answers true after the always-fulfilled save, and false only after an exception |
| UseOnboarding.GoNextSavesOnlyTheCursor | src/hooks/useOnboarding.ts:41-52 | goNext sends at most two requests, only for an unsaved critical cursor, and saves no step but the cursor |
| UseOnboarding.OnboardingController.IsCriticalStep | src/hooks/useOnboarding.ts:164 | true exactly when the cursor is one of 1, 2, 3, 5, 9 |
| UseOnboarding.OnboardingController.PendingSyncCleanup | src/hooks/useOnboarding.ts:111-125 | once pending differs from its earlier value, the timer is cancelled; otherwise it is kept |
| UseOnboarding.OnboardingController.MountEffect | src/hooks/useOnboarding.ts:128-130 | the store's totalSteps becomes the hook argument |
| UseOnboarding.OnboardingController.SetStep | src/hooks/useOnboarding.ts:34-36 | the cursor is set |
| UseOnboarding.OnboardingController.GoNext | src/hooks/useOnboarding.ts:41-52 | the whole store becomes `GoNextState`: a critical unsaved cursor is saved as `SaveStepData` does, then the cursor advances as next does, and every other field is kept; a change of pending cancels the timer |
| UseOnboarding.OnboardingController.GoBack | src/hooks/useOnboarding.ts:54-56 | the cursor moves back as previousStep does |
| UseOnboarding.OnboardingController.Complete | src/hooks/useOnboarding.ts:58-60 | the store is completed on the last step with nothing pending, and a timer armed while data was pending is cancelled |
| UseOnboarding.OnboardingController.Reset | src/hooks/useOnboarding.ts:62-64 | the store is reset as resetOnboarding does, and a timer armed while data was pending is cancelled |
| UseOnboarding.OnboardingController.UpdateData | src/hooks/useOnboarding.ts:67-81 | the store becomes exactly `UpdatedState`: the form data is merged, a sync is pending, and nothing else changes; a new timer capturing the cursor replaces any earlier one, and survives only when the data was already pending |
| UseOnboarding.OnboardingController.FireSyncTimer | src/hooks/useOnboarding.ts:75-80 | the timer is consumed and sets pending only for a non-critical captured step; while a timer is armed only with data pending, firing it never changes pending |
| UseOnboarding.OnboardingController.Unmount | src/hooks/useOnboarding.ts:133-139 | the pending timer is cleared |
| UseOnboarding.OnboardingController.SaveCriticalData | src/hooks/useOnboarding.ts:84-96 | the store becomes `CriticalSaveState`: a critical target is saved as `SaveStepData` does, and a non-critical one leaves the store and the log unchanged; a change of pending cancels the timer; the answer is always true |
| UseOnboarding.OnboardingController.SaveCurrentStepNumber | src/hooks/useOnboarding.ts:100-108 | one progress PUT for registered steps, and the answer is always true |
| ScreenGate.AfterSave | components/onboarding/name-screen.tsx:76-93 | the Retry/Skip alert appears exactly for a failed critical save, its Skip goes to the next route, and otherwise the screen navigates there |
| NameScreen.NameSaveSendsTrimmedNames | components/onboarding/name-screen.tsx:67-77 | after continue, the step-1 save sends the trimmed first and last names |
| NameScreen.CanContinue | components/onboarding/name-screen.tsx:96 | continue is enabled exactly when neither name is blank and nothing is loading |
| NameScreen.BlankNameCannotContinue | components/onboarding/name-screen.tsx:96 | a blank first name disables continue |
| NameScreen.NameScreen.Mount | components/onboarding/name-screen.tsx:36-44 | on first mount the cursor becomes 1 and one progress PUT is sent; later mounts send nothing |
| NameScreen.NameScreen.LoadFromStore | components/onboarding/name-screen.tsx:46-50 | the inputs take truthy stored names, and otherwise keep their text |
| NameScreen.NameScreen.ChangeFirstName | components/onboarding/name-screen.tsx:132-136 | the input keeps the raw text while the store becomes `UpdatedState` with the trimmed first name and nothing else changed; a timer capturing the cursor is armed and survives only when data was already pending |
| NameScreen.NameScreen.ChangeLastName | components/onboarding/name-screen.tsx:151-155 | the input keeps the raw text while the store becomes `UpdatedState` with the trimmed last name and nothing else changed; a timer capturing the cursor is armed and survives only when data was already pending |
| NameScreen.NameScreen.HandleContinue | components/onboarding/name-screen.tsx:61-94 | a blank name shows the alert and leaves the whole store and the timer unchanged; otherwise the store becomes `CriticalSaveState` of `UpdatedState` with the trimmed names (a critical cursor is saved as `SaveStepData` does, every other field is kept), the timer follows `TimerAfterUpdateAndSave`, and the screen goes to gender |
| GenderScreen.GenderSaveSendsSelection | components/onboarding/gender-screen.tsx:79-87 | after continue, the step-2 save sends the selected gender |
| GenderScreen.GenderScreen.Mount | components/onboarding/gender-screen.tsx:34-40 | on first mount the cursor becomes 2 and one progress PUT is sent |
| GenderScreen.GenderScreen.LoadFromStore | components/onboarding/gender-screen.tsx:43-45 | the selection takes a truthy stored gender |
| GenderScreen.GenderScreen.SelectGender | components/onboarding/gender-screen.tsx:68-70 | the selection is replaced |
| GenderScreen.GenderScreen.HandleContinue | components/onboarding/gender-screen.tsx:72-104 | no selection shows the alert and leaves the whole store and the timer unchanged; otherwise the store becomes `CriticalSaveState` of `UpdatedState` with the gender (a critical cursor is saved as `SaveStepData` does, every other field is kept), the timer follows `TimerAfterUpdateAndSave`, and the screen goes to birthday |
| BirthdayScreen.BirthdayScreen.Mount | components/onboarding/birthday-screen.tsx:34-40 | on first mount the cursor becomes 3 and one progress PUT is sent |
| BirthdayScreen.BirthdayScreen.LoadFromStore | components/onboarding/birthday-screen.tsx:43-54 | a stored date with exactly three slash parts is parsed with `new Date(y, m - 1, d)`, and otherwise the selection stays |
| BirthdayScreen.BirthdayScreen.ConfirmDate | components/onboarding/birthday-screen.tsx:64-67 | the picked date is selected |
| BirthdayScreen.BirthdayScreen.HandleSubmit | components/onboarding/birthday-screen.tsx:76-118 | no date shows the alert and leaves the whole store and the timer unchanged; otherwise the store becomes `CriticalSaveState` of `UpdatedState` with the date as MM/DD/YYYY (a critical cursor is saved as `SaveStepData` does, every other field is kept), the timer follows `TimerAfterUpdateAndSave`, and the screen goes to setup-profile |
| BirthdayScreen.PickedDateSurvivesReload | components/onboarding/birthday-screen.tsx:43-74 | a picked date, formatted and stored, parses back to the same date on reload |
| DateText.DaysInMonth | components/onboarding/birthday-screen.tsx:51 | months have 28-31 days, and 29 only for a leap February |
| DateText.Normalize | components/onboarding/birthday-screen.tsx:51 | `new Date` rolls any day offset over into a valid calendar date and leaves valid dates alone |
| DateText.FullYear | components/onboarding/birthday-screen.tsx:51 | years 0-99 are read as 1900-1999 |
| DateText.NewDate | components/onboarding/birthday-screen.tsx:48-51 | a NaN part gives an Invalid Date; otherwise the date is valid, and a valid four-digit triple is kept as is |
| DateText.MinusOne | components/onboarding/birthday-screen.tsx:48 | `parseInt(..) - 1` stays NaN for NaN |
| DateText.FormatMDY | components/onboarding/birthday-screen.tsx:69-74 | an Invalid Date formats as "NaN/NaN/NaN" |
| DateText.ParseBirthDate | components/onboarding/birthday-screen.tsx:46-52 | a date is produced exactly when the text splits into three parts |
| DateText.ParseAccountBirthDate | components/settings/AccountInformation.tsx:50-53 | fewer than three parts gives an Invalid Date |
| DateText.FormattedParts | components/onboarding/birthday-screen.tsx:69-74 | the formatted text splits into the padded month, the padded day and the year |
| DateText.BirthDateRoundTrip | components/onboarding/birthday-screen.tsx:43-74 | formatting then parsing returns the date, for years from 100 on |
| DateText.ParsedParts | components/onboarding/birthday-screen.tsx:43-54 | parsing a formatted date hands the date's own year, month and day to the Date constructor |
| DateText.TwoDigitYearShifts | components/onboarding/birthday-screen.tsx:51 | a date in a year y from 0 to 99 reloads as year 1900 + y, so the round trip needs years from 100 on |
| DateText.NewDateOfTwoDigitYear | components/onboarding/birthday-screen.tsx:51 | `new Date(y, m, d)` with a year from 0 to 99 builds that day in year 1900 + y |
| DateText.AccountBirthDateRoundTrip | components/settings/AccountInformation.tsx:50-53 | the radix-less parse also reads the formatted date back |
| JsText.TrimStart | components/onboarding/name-screen.tsx:62 | the result is a suffix, only whitespace was removed, and it starts with a non-space |
| JsText.TrimEnd | components/onboarding/name-screen.tsx:62 | the result is a prefix, only whitespace was removed, and it ends with a non-space |
| JsText.Trim | components/onboarding/name-screen.tsx:62 | the trimmed text is empty exactly for blank input, and otherwise neither end is whitespace |
| JsText.TrimOfNonBlankCore | components/onboarding/name-screen.tsx:69-70 | text without outer whitespace trims to itself |
| JsText.ToLower | components/dashboard/notifications/Notifications.tsx:79 | the length is kept, no ASCII capital remains, and every other character is unchanged |
| JsText.ToUpper | components/settings/AccountInformation.tsx:69-70 | the length is kept, no ASCII small letter remains, and every other character is unchanged |
| JsText.CharAt0 | components/settings/AccountInformation.tsx:69-70 | `charAt(0)` has at most one character |
| JsText.IncludesEmpty | components/dashboard/notifications/Notifications.tsx:79 | every text includes the empty query |
| JsText.IncludesPrefix | components/dashboard/notifications/Notifications.tsx:79 | every text includes each of its prefixes |
| JsText.NatToString | src/store/thunks/onboardingThunks.ts:62 | decimal printing gives digits whose value is the number, with no leading zero |
| JsText.IntToString | src/store/thunks/onboardingThunks.ts:62 | printing starts with '-' exactly for negatives |
| JsText.PadStart2 | components/onboarding/birthday-screen.tsx:70-71 | `padStart(2, "0")` reaches length 2 by adding zeros on the left and keeps the text as a suffix |
| JsText.LeadingDigits | src/store/thunks/onboardingThunks.ts:313 | parseInt reads the longest digit prefix |
| JsText.ParseInt | src/store/thunks/onboardingThunks.ts:313 | a number comes out only when the text has a digit, and a negative one only when it has a '-' |
| JsText.ParseIntAutoRadix | components/settings/AccountInformation.tsx:53 | without a 0x prefix after the sign it agrees with `parseInt(s, 10)`, and a negative result needs a '-' |
| JsText.AutoRadixOfDigits | components/settings/AccountInformation.tsx:53 | on plain digits, `parseInt` without a radix reads base 10 |
| JsText.AutoRadixIsDecimalWithoutHexPrefix | components/settings/AccountInformation.tsx:53 | without a 0x prefix, the radix-less parse agrees with base 10 |
| JsText.ParseIntOfDigits | src/store/thunks/onboardingThunks.ts:313 | digits followed by a non-digit parse to the digits' value |
| JsText.ParseIntNatToString | src/store/thunks/onboardingThunks.ts:313 | parseInt reads back a printed natural number |
| JsText.ParseIntPadded | components/onboarding/birthday-screen.tsx:48-49 | parseInt reads back a zero-padded number |
| JsText.AutoRadixNatToString | components/settings/AccountInformation.tsx:53 | the radix-less parse reads back a printed number |
| JsText.AutoRadixPadded | components/settings/AccountInformation.tsx:53 | the radix-less parse reads back a zero-padded number |
| JsText.ParseIntIntToString | src/store/thunks/onboardingThunks.ts:62 | parseInt reads back any printed integer, including negatives |
| JsText.Split | components/onboarding/birthday-screen.tsx:46 | `split` always yields at least one part |
| JsText.SplitWithoutSeparator | components/onboarding/birthday-screen.tsx:46 | text without the separator splits into itself |
| JsText.SplitAtSeparator | components/onboarding/birthday-screen.tsx:46 | splitting at the first separator gives the text before it, then the split of the rest |
| JsText.SplitThree | components/onboarding/birthday-screen.tsx:46-47 | three separator-free parts joined by the separator split back into exactly those parts |
| JsText.FirstDot | components/onboarding/weight-screen.tsx:41 | the index of the first dot, or the length when there is none |
| JsText.DecimalNumber | components/onboarding/weight-screen.tsx:45-49 | `Number()` gives a number exactly for digits-and-dots text with at most one dot other than a lone ".", and that number is never negative |
| JsText.DecimalValuePositive | components/onboarding/weight-screen.tsx:45-49 | the decimal value is never negative, and positive exactly when a non-zero digit appears |
| JsText.DecimalPositiveIff | components/onboarding/weight-screen.tsx:45-49 | `Number(v) > 0` on digit-and-dot text holds exactly when there is at most one dot and a non-zero digit |
| NumericInput.KeepNumeric | components/onboarding/weight-screen.tsx:41 | the first replace keeps only digits and dots |
| NumericInput.KeepNumericOfNumeric | components/onboarding/weight-screen.tsx:41 | the first replace leaves digit-and-dot text unchanged |
| NumericInput.LastDot | components/onboarding/weight-screen.tsx:41 | the index of the last dot, or -1 |
| NumericInput.DropExtraDot | components/onboarding/weight-screen.tsx:41 | with at most one dot the text is kept; with two or more it loses exactly one dot and one character, and everything up to the first dot is kept |
| NumericInput.Sanitize | components/onboarding/weight-screen.tsx:41 | the sanitised text has only digits and dots |
| NumericInput.DotCountAround | components/onboarding/weight-screen.tsx:41 | the dots of a text are those before, at and after an index |
| NumericInput.TwoDotsIff | components/onboarding/weight-screen.tsx:41 | the first dot comes before the last exactly when there are at least two dots |
| NumericInput.SanitizeKeepsOneDot | components/onboarding/weight-screen.tsx:41 | with at most one dot, the second replace changes nothing |
| NumericInput.SanitizeDropsLastDot | components/onboarding/weight-screen.tsx:41 | with two or more dots, exactly the last dot is removed |
| NumericInput.SanitizeKeepsTwoOfThreeDots | components/onboarding/weight-screen.tsx:41-49 | "1.2.3.4" sanitises to "1.2.34", which still has two dots and is not a valid number |
| NumericInput.IsValidNumber | components/onboarding/weight-screen.tsx:45-49 | a value is valid exactly when it is digits and dots with at most one dot and a non-zero digit |
| NumericInput.HeightBoundsInclusive | components/onboarding/height-screen.tsx:41-46 | 20 and 96 inches are accepted |
| NumericInput.HeightBoundsExclusive | components/onboarding/height-screen.tsx:41-46 | 97 and 19.5 inches are refused |
| NumericInput.IsValidHeight | components/onboarding/height-screen.tsx:41-46 | a valid height is also a valid positive number: digits and dots, at most one dot, and a non-zero digit |
| WeightScreen.WeightData | components/onboarding/weight-screen.tsx:57-79 | a submit stores exactly the two weights, both positive numbers |
| WeightScreen.WeightDataIsNumeric | components/onboarding/weight-screen.tsx:52-55 | submittable weights are digit-and-dot text with at most one dot and a non-zero digit |
| WeightScreen.WeightStepSavesNothing | components/onboarding/weight-screen.tsx:57-79 | leaving step 4 sends no save through goNext, and a save of step 4 would post the primary goal |
| WeightScreen.WeightScreen.Mount | components/onboarding/weight-screen.tsx:27-33 | on first mount the cursor becomes 4 and one progress PUT is sent |
| WeightScreen.WeightScreen.LoadFromStore | components/onboarding/weight-screen.tsx:36-39 | inputs take the stored values as text |
| WeightScreen.WeightScreen.ChangeCurrent | components/onboarding/weight-screen.tsx:42 | the input holds the sanitised text |
| WeightScreen.WeightScreen.ChangeTarget | components/onboarding/weight-screen.tsx:43 | the input holds the sanitised text |
| WeightScreen.WeightScreen.CanSubmit | components/onboarding/weight-screen.tsx:52-55 | submit is enabled exactly when each weight is digits with at most one dot and a digit other than 0 |
| WeightScreen.WeightScreen.HandleSubmit | components/onboarding/weight-screen.tsx:57-79 | an invalid form leaves the whole store unchanged; otherwise the store becomes `GoNextState` of `UpdatedState` with both weights, the timer follows `TimerAfterUpdateAndSave`, the weight POST follows goNext's requests, and the screen goes on |
| HeightScreen.HeightInches | components/onboarding/height-screen.tsx:53-70 | a valid height is between 20 and 96 inches |
| HeightScreen.ValidHeightText | components/onboarding/height-screen.tsx:41-51 | a height is valid exactly when its number lies in 20 to 96; the emptiness test is implied by the range |
| HeightScreen.HeightStepSavesMedicalConditions | components/onboarding/height-screen.tsx:53-70 | leaving critical step 5 saves the stored medical conditions, and with none stored it sends nothing |
| HeightScreen.HeightScreen.Mount | components/onboarding/height-screen.tsx:24-30 | on first mount the cursor becomes 5 and one progress PUT is sent |
| HeightScreen.HeightScreen.LoadFromStore | components/onboarding/height-screen.tsx:33-35 | the input takes the stored height as text |
| HeightScreen.HeightScreen.ChangeHeight | components/onboarding/height-screen.tsx:38-39 | the input holds the sanitised text |
| HeightScreen.HeightScreen.CanSubmit | components/onboarding/height-screen.tsx:41-51 | an enabled submit has a positive number written as digits with at most one dot; the emptiness test is implied by the 20 to 96 range |
| HeightScreen.HeightScreen.HandleSubmit | components/onboarding/height-screen.tsx:53-70 | an invalid form leaves the whole store unchanged; otherwise the store becomes `GoNextState` of `UpdatedState` with the height, the timer follows `TimerAfterUpdateAndSave`, the height PUT follows goNext's requests, and the screen goes on |
| FitnessScreen.FitnessDataIsText | components/onboarding/fitness-screen.tsx:43-64 | the store gets the two inputs as text |
| FitnessScreen.FitnessStepSavesNothing | components/onboarding/fitness-screen.tsx:43-64 | leaving step 7 sends no save through goNext, and a save of step 7 would post the current weight |
| FitnessScreen.FitnessScreen.Mount | components/onboarding/fitness-screen.tsx:17-23 | on first mount the cursor becomes 7 and one progress PUT is sent |
| FitnessScreen.FitnessScreen.LoadFromStore | components/onboarding/fitness-screen.tsx:26-29 | inputs take the stored values as text |
| FitnessScreen.FitnessScreen.ChangeVo2Max | components/onboarding/fitness-screen.tsx:31-33 | the input holds the sanitised text |
| FitnessScreen.FitnessScreen.ChangeRaceTime | components/onboarding/fitness-screen.tsx:31-33 | the input holds the sanitised text |
| FitnessScreen.FitnessScreen.CanSubmit | components/onboarding/fitness-screen.tsx:34-42 | submit is enabled exactly when each value is digits with at most one dot and a digit other than 0 |
| FitnessScreen.FitnessScreen.HandleSubmit | components/onboarding/fitness-screen.tsx:43-64 | an invalid form leaves the whole store unchanged; otherwise the store becomes `GoNextState` of `UpdatedState` with both values as text, the timer follows `TimerAfterUpdateAndSave`, the fitness POST carries both numbers, and the screen goes on |
| MedicalScreen.Without | components/onboarding/medical-screen.tsx:69 | filtering never lengthens the list |
| MedicalScreen.WithoutContents | components/onboarding/medical-screen.tsx:69 | `filter(c => c !== x)` removes every copy of x and nothing else |
| MedicalScreen.WithoutDistinct | components/onboarding/medical-screen.tsx:69 | filtering keeps a duplicate-free list duplicate-free |
| MedicalScreen.ToggleSelection | components/onboarding/medical-screen.tsx:66-72 | the toggled id is selected afterwards exactly when it was not before, and every other id keeps its membership |
| MedicalScreen.ToggleAbsentAppends | components/onboarding/medical-screen.tsx:66-72 | selecting an absent condition appends it at the end |
| MedicalScreen.TogglePresentRemovesAll | components/onboarding/medical-screen.tsx:66-72 | selecting a present condition removes it |
| MedicalScreen.ToggleKeepsDistinct | components/onboarding/medical-screen.tsx:66-72 | toggling keeps the selection duplicate-free |
| MedicalScreen.ToggleTwice | components/onboarding/medical-screen.tsx:66-72 | toggling an absent condition twice restores the selection, and toggling a present one twice keeps the same members |
| MedicalScreen.ToggleLeavesSelection | components/onboarding/medical-screen.tsx:66-72 | a toggle leaves a non-empty selection exactly when it adds the id or another id was selected |
| MedicalScreen.WithoutOfAbsent | components/onboarding/medical-screen.tsx:69 | removing an absent id changes nothing |
| MedicalScreen.WithoutAppend | components/onboarding/medical-screen.tsx:69-70 | removing an id just appended undoes the append |
| MedicalScreen.TogglesFromEmptyAreDistinct | components/onboarding/medical-screen.tsx:66-72 | any sequence of toggles from a duplicate-free selection stays duplicate-free |
| MedicalScreen.MedicalScreen.Mount | components/onboarding/medical-screen.tsx:29-48 | on first mount the cursor becomes 8, a progress PUT and the conditions GET are sent |
| MedicalScreen.MedicalScreen.ConditionsSettled | components/onboarding/medical-screen.tsx:37-46 | the list takes the fetched data when present, and loading ends either way |
| MedicalScreen.MedicalScreen.SelectCondition | components/onboarding/medical-screen.tsx:66-72 | the selection is toggled and stays duplicate-free, and submit is then enabled exactly when the id was added or another id remains |
| MedicalScreen.MedicalScreen.CanSubmit | components/onboarding/medical-screen.tsx:50 | submit is enabled exactly when some condition id is selected |
| MedicalScreen.MedicalScreen.HandleSubmit | components/onboarding/medical-screen.tsx:52-64 | an empty selection leaves the whole store unchanged; otherwise the ids are posted, then the store becomes `GoNextState` with its form data never written, a change of pending cancels the timer, and the screen goes on |
| RootLayout.AwaitToken | app/_layout.tsx:51-59 | getToken is called at most 11 times; every call before the last gave no token; the result is the found token, a thrown error, or the missing case after 11 empty calls |
| RootLayout.TokenAtOnce | app/_layout.tsx:51 | a token on the first call needs no retry |
| RootLayout.NoTokenEver | app/_layout.tsx:54-61 | without any token, all 11 calls are made and the token is reported missing |
| RootLayout.StartupRoute | app/_layout.tsx:49-98 | the first route for each combination of sign-in, token and restore outcome, including staying put on an onboarding segment |
| RootLayout.SignedInRouteIsKnown | app/_layout.tsx:61-98 | a signed-in user always gets a route: tabs, name screen, onboarding, or a registered step screen; a completed user goes to tabs |
| RootLayout.AppSession.MountLayout | app/_layout.tsx:114 | the layout's state starts from the session flag, so the layout never runs ahead of it and a loaded app skips the splash once the check has completed |
| RootLayout.AppSession.HandleAuthCheckComplete | app/_layout.tsx:137-141 | both completion flags are set and onReady is counted, so the splash is hidden from then on |
| RootLayout.AppSession.ShowSplash | app/_layout.tsx:151 | the splash always shows while fonts load and never once the check has completed; while the layout follows the session it shows exactly until then |
| RootLayout.AppSession.WaitForToken | app/_layout.tsx:51-59 | the retry loop computes exactly `AwaitToken` |
| RootLayout.AppSession.InitialRouteHandler | app/_layout.tsx:40-105 | it runs once per session after the auth library loads; then it fetches status only with a token, and the store becomes `RestoredState` of that outcome exactly when status was fetched and is otherwise unchanged; it routes by `StartupRoute`, marks the sign-in check complete and hides the splash |
| DeviceSlice.FindIndex | src/store/slices/deviceSlice.ts:35 | `find` by id gives the first matching device, or none |
| DeviceSlice.AfterConnect | src/store/slices/deviceSlice.ts:33-42 | a known device is marked connected and stamped in place; an unknown one is appended; unique ids stay unique |
| DeviceSlice.AfterDisconnect | src/store/slices/deviceSlice.ts:47-52 | only the first matching device is marked disconnected |
| DeviceSlice.AfterSync | src/store/slices/deviceSlice.ts:62-67 | only the first matching device gets a new sync time |
| DeviceSlice.RemoveId | src/store/slices/deviceSlice.ts:54 | filtering never lengthens the list |
| DeviceSlice.RemoveIdMembers | src/store/slices/deviceSlice.ts:54 | removal keeps exactly the devices with other ids |
| DeviceSlice.RemoveIdConcat | src/store/slices/deviceSlice.ts:54 | removal distributes over concatenation |
| DeviceSlice.RemoveIdAbsent | src/store/slices/deviceSlice.ts:54 | removing an unknown id changes nothing |
| DeviceSlice.DeviceStore.ConnectDeviceStart | src/store/slices/deviceSlice.ts:29-32 | connecting starts, and the error clears |
| DeviceSlice.DeviceStore.ConnectDeviceSuccess | src/store/slices/deviceSlice.ts:33-42 | the list becomes `AfterConnect`, and connecting ends |
| DeviceSlice.DeviceStore.ConnectDeviceFailure | src/store/slices/deviceSlice.ts:43-46 | connecting ends with the error |
| DeviceSlice.DeviceStore.DisconnectDevice | src/store/slices/deviceSlice.ts:47-52 | the list becomes `AfterDisconnect` |
| DeviceSlice.DeviceStore.RemoveDevice | src/store/slices/deviceSlice.ts:53-58 | the device is removed, and the selection clears if it was that device |
| DeviceSlice.DeviceStore.SelectDevice | src/store/slices/deviceSlice.ts:59-61 | the selection is the id |
| DeviceSlice.DeviceStore.SyncDevice | src/store/slices/deviceSlice.ts:62-67 | the list becomes `AfterSync` |
| DeviceSlice.DeviceStore.ClearDeviceError | src/store/slices/deviceSlice.ts:68-70 | the error clears |
| ProfileSlice.ProfileStore.SetProfileData | src/store/slices/profileSlice.ts:41-43 | the data is merged with the payload, and keys the payload leaves out keep their values |
| ProfileSlice.ProfileStore.UpdateLocalProfile | src/store/slices/profileSlice.ts:53-56 | the payload is merged, and fields the payload sets to undefined read as absent |
| ProfileSlice.ProfileStore.ClearProfileError | src/store/slices/profileSlice.ts:44-46 | the error clears |
| ProfileSlice.ProfileStore.ResetProfile | src/store/slices/profileSlice.ts:47-52 | data, completion, error and stamp are reset, and loading is kept |
| ProfileSlice.ProfileStore.RequestPending | src/store/slices/profileSlice.ts:61-64 | loading starts, and the error clears |
| ProfileSlice.ProfileStore.SaveFulfilled | src/store/slices/profileSlice.ts:65-71 | the saved profile is merged in, the fields the server left undefined are removed, completion is set and the save is stamped |
| ProfileSlice.ProfileStore.FetchFulfilled | src/store/slices/profileSlice.ts:83-89 | a fetched profile replaces the data outright |
| ProfileSlice.ProfileStore.RequestRejected | src/store/slices/profileSlice.ts:72-75 | loading ends with the rejection message |
| ProfileSlice.FormatForFrontend | src/store/thunks/profileThunks.ts:50-58 | each of the five fields is either a key or left undefined, never both; a name or birth date is a key exactly when the server sent one; the height is a key exactly when the inches are present and non-zero, and is then inches times 2.54 |
| ProfileSlice.ServerProfileDecides | src/store/slices/profileSlice.ts:67 | after a fulfilled save each of the five fields is present exactly when the server's formatted profile has it, other keys stay as they were, and a zero or missing height removes the stored height |
| ProfileSlice.SettledData | src/store/slices/profileSlice.ts:65-75 | a rejected save keeps the data; a fulfilled one removes the fields the server left undefined, takes its defined fields, and keeps every other key |
| ProfileSlice.ProfileStore.CreateOrUpdateProfile | src/store/slices/profileSlice.ts:61-75 | pending, then fulfilled or rejected: the data is `SettledData` (the server's defined fields win and its undefined fields are cleared), loading ends, and the error, completion and stamp follow the reply |
| AuthSlice.Patched | src/store/slices/authSlice.ts:43-47 | each user field takes the patch's value when given and otherwise keeps its own |
| AuthSlice.PatchLaws | src/store/slices/authSlice.ts:43-47 | an empty patch changes nothing, and applying a patch twice equals applying it once |
| AuthSlice.AuthStore.Logout | src/store/slices/authSlice.ts:32-39 | the session is cleared, including the API client's token |
| AuthSlice.AuthStore.ClearError | src/store/slices/authSlice.ts:40-42 | the error clears |
| AuthSlice.AuthStore.UpdateUser | src/store/slices/authSlice.ts:43-47 | a present user is patched, and a missing user stays missing |
| AuthSlice.AuthStore.SetToken | src/store/slices/authSlice.ts:48-52 | the store and the API client hold the same token |
| AuthSlice.AuthStore.AuthPending | src/store/slices/authSlice.ts:57-60 | loading starts, and the error clears |
| AuthSlice.AuthStore.AuthFulfilled | src/store/slices/authSlice.ts:61-69 | the user and token are stored and mirrored to the client |
| AuthSlice.AuthStore.AuthRejected | src/store/slices/authSlice.ts:70-75 | the client token clears while the store keeps its old token, so a stored token is no longer mirrored |
| RecommendationsSlice.RecommendationsStore.SetLoading | src/store/slices/recommendationsSlice.ts:68-70 | loading takes the payload |
| RecommendationsSlice.RecommendationsStore.SetRecommendations | src/store/slices/recommendationsSlice.ts:71-76 | the recommendations are stored and stamped, loading ends, and the error clears |
| RecommendationsSlice.RecommendationsStore.SetError | src/store/slices/recommendationsSlice.ts:77-80 | the error is set, and loading ends |
| RecommendationsSlice.RecommendationsStore.ClearRecommendations | src/store/slices/recommendationsSlice.ts:81-85 | recommendations, error and stamp clear, and loading is kept |
| HealthSync.FailedSync | src/lib/healthSync.ts:156-162 | a thrown read reports failure with zero counts |
| HealthSync.NothingToSync | src/lib/healthSync.ts:59-66 | an empty read reports success with zero counts |
| HealthSync.HeartRateRecordOf | src/lib/healthSync.ts:76-81 | a sample maps to a record with context "unknown" and the sample id, or a synthesized id when the sample has none |
| HealthSync.RecordsOf | src/lib/healthSync.ts:74-89 | every sample maps to a record, in order |
| HealthSync.PartitionIsExact | src/lib/healthSync.ts:70-89 | recent and older records split the samples exactly at seven days |
| HealthSync.RecentMembers | src/lib/healthSync.ts:70-89 | the recent group holds exactly the records captured at or after the cut-off |
| HealthSync.OlderMembers | src/lib/healthSync.ts:70-89 | the older group holds exactly the records captured before the cut-off |
| HealthSync.GroupsCoverAll | src/lib/healthSync.ts:70-89 | the two groups together hold every record exactly once |
| HealthSync.FirstPerHourStep | src/lib/healthSync.ts:94-103 | one loop step keeps a record exactly when its hour bucket is new |
| HealthSync.FirstPerHourKeys | src/lib/healthSync.ts:92-105 | downsampling keeps one record per hour bucket, covering every bucket, and never adds records |
| HealthSync.FirstPerHourKeepsFirsts | src/lib/healthSync.ts:99-101 | the first record of each hour bucket is kept |
| HealthSync.FirstPerHourOnlyFirsts | src/lib/healthSync.ts:99-101 | only first records of their bucket are kept |
| HealthSync.BatchAt | src/lib/healthSync.ts:121-122 | every batch holds between 1 and 100 records |
| HealthSync.BatchesCoverPayload | src/lib/healthSync.ts:121-122 | the batches, concatenated, are the payload |
| HealthSync.CountersAddUp | src/lib/healthSync.ts:121-145 | synced plus errors is the number of records sent, and errors are zero exactly when every batch succeeded |
| HealthSync.Partition | src/lib/healthSync.ts:72-89 | the loop builds exactly the recent and older lists |
| HealthSync.Downsample | src/lib/healthSync.ts:92-105 | the loop keeps exactly the first record per hour |
| HealthSync.SendBatches | src/lib/healthSync.ts:115-145 | the loop sends the batches in order, and its counters match `SyncedAfter`/`ErrorsAfter` |
| HealthSync.SyncHeartRate | src/lib/healthSync.ts:49-163 | failure and empty reads short-cut; otherwise the recent records plus the downsampled older ones are batched; success means zero errors |
| HealthSync.HeartRatePayloadBounds | src/lib/healthSync.ts:108-145 | every payload record is counted once, and the payload is no larger than the read |
| HealthSync.SinglePost | src/lib/healthSync.ts:234-247 | one batch POST counts all records as synced or all as errors |
| HealthSync.DayCountIsCeiling | src/lib/healthSync.ts:178 | the day count is the ceiling of the span in days, plus one |
| HealthSync.DayStarts | src/lib/healthSync.ts:181-182 | one timestamp per day, each one day after the previous |
| HealthSync.StepRecordOf | src/lib/healthSync.ts:205-222 | a day's record carries its steps, local-midnight UTC start and "steps_" id |
| HealthSync.ActiveDays | src/lib/healthSync.ts:193 | only days with steps are kept |
| HealthSync.ActiveDaysContents | src/lib/healthSync.ts:193-205 | every day with steps has its record |
| HealthSync.ActiveDaysOrigin | src/lib/healthSync.ts:193-205 | every record comes from a day with steps |
| HealthSync.StepIdIsPadded | src/lib/healthSync.ts:207-210 | the date text is year-MM-DD with two-digit month and day |
| HealthSync.SyncSteps | src/lib/healthSync.ts:169-260 | a read failure fails, no active day is nothing to sync, and otherwise a single batch POST is sent |
| HealthSync.Vo2RecordOf | src/lib/healthSync.ts:283-288 | a sample maps to an apple_health estimate with its id, or a synthesized one |
| HealthSync.SyncVo2Max | src/lib/healthSync.ts:264-322 | failure and empty reads short-cut; otherwise every sample is posted in one batch |
| HealthSync.RoundToSeconds | src/lib/healthSync.ts:349 | `Math.round(ms / 1000)` lies within half a second |
| HealthSync.WorkoutRecordOf | src/lib/healthSync.ts:345-360 | a workout's duration falls back to its rounded span, calories and distance are sent only when positive, and the id is synthesized |
| HealthSync.SyncWorkouts | src/lib/healthSync.ts:326-394 | failure and empty reads short-cut; otherwise every workout is posted in one batch |
| HealthSync.Aggregate | src/lib/healthSync.ts:418-420 | overall success is the conjunction, and the totals are the sums |
| HealthSync.OverallSuccessMeansNoErrors | src/lib/healthSync.ts:418-420 | overall success implies zero errors, and a failed read makes the overall result fail |
| HealthSync.SyncAllHealthData | src/lib/healthSync.ts:398-440 | each category result is its sync's result, and the overall line aggregates them |
| ChangePassword.StrongExamples | components/settings/ChangePassword.tsx:38-43 | "Passw0rd!" is strong; passwords lacking a symbol, an upper-case letter or length are not |
| ChangePassword.ExpectedErrors | components/settings/ChangePassword.tsx:26-61 | the shown messages field by field, including "must be different" winning over the strength message |
| ChangePassword.ValidIff | components/settings/ChangePassword.tsx:26-61 | validation passes exactly for a current password plus a strong, different and confirmed new one |
| ChangePassword.EmptyNewHidesMismatch | components/settings/ChangePassword.tsx:56 | with no new password, a filled confirmation shows no mismatch |
| ChangePassword.ChangePasswordScreen.Validate | components/settings/ChangePassword.tsx:26-61 | the error state becomes `ExpectedErrors`, and the answer is whether it is clean |
| ChangePassword.ChangePasswordScreen.OnSave | components/settings/ChangePassword.tsx:63-68 | the screen navigates back exactly when validation passes |
| ChangePassword.Strong | components/settings/ChangePassword.tsx:38-43 | a passing password has at least 8 characters and, having one of each of four kinds, at least four distinct characters |
| ChangePassword.FourKindsFourChars | components/settings/ChangePassword.tsx:39-42 | one lower-case letter, one capital, one digit and one symbol are four distinct characters |
| ChangePassword.ChangePasswordScreen.SetCurrent | components/settings/ChangePassword.tsx:90 | the current-password field holds the typed text |
| ChangePassword.ChangePasswordScreen.SetNext | components/settings/ChangePassword.tsx:103 | the new-password field holds the typed text |
| ChangePassword.ChangePasswordScreen.SetConfirm | components/settings/ChangePassword.tsx:116 | the confirmation field holds the typed text |
| AccountInformation.Initial | components/settings/AccountInformation.tsx:69-70 | a blank name gives no initial, and otherwise its upper-cased first non-space character |
| AccountInformation.Initials | components/settings/AccountInformation.tsx:68-72 | "SK" when both names are blank, and otherwise the initials of the non-blank names |
| AccountInformation.FormatDate | components/settings/AccountInformation.tsx:74-80 | no date gives "", and a date gives MM/DD/YYYY |
| AccountInformation.CanSave | components/settings/AccountInformation.tsx:107 | save is enabled exactly with both names non-blank and nothing in flight |
| AccountInformation.SaveUpdates | components/settings/AccountInformation.tsx:87-92 | trimmed names, the gender, and the formatted date only when one is picked |
| AccountInformation.UpdatesData | components/settings/AccountInformation.tsx:94 | the update as profile fields, with no birth date key when there is no date |
| AccountInformation.SavedBirthDateReadsBack | components/settings/AccountInformation.tsx:50-91 | a saved birth date is parsed back to the picked date on reload |
| AccountInformation.ReloadAfterSave | components/settings/AccountInformation.tsx:43-94 | reloading the form after the local update shows exactly the saved values, and no date when none was picked |
| AccountInformation.ReloadAfterSettledSave | src/store/slices/profileSlice.ts:65-75 | after a rejected save the local values stay; after a fulfilled one each field reads "" when the server left it undefined, the server's value when it sent one, and the local value otherwise |
| AccountInformation.ServerWithoutDateClearsIt | src/store/slices/profileSlice.ts:67 | a server reply without a birth date clears the date the form reloads |
| AccountInformation.AccountInformationScreen.LoadFromProfile | components/settings/AccountInformation.tsx:43-59 | the fields take the profile's values or "", and a stored date is parsed |
| AccountInformation.AccountInformationScreen.SetFirstName | components/settings/AccountInformation.tsx:144 | the first-name field holds the typed text |
| AccountInformation.AccountInformationScreen.SetLastName | components/settings/AccountInformation.tsx:154 | the last-name field holds the typed text |
| AccountInformation.AccountInformationScreen.PickDate | components/settings/AccountInformation.tsx:202 | the picked date is selected |
| AccountInformation.AccountInformationScreen.OnSave | components/settings/AccountInformation.tsx:82-105 | the local profile is updated with `SaveUpdates`, then the awaited save settles it as `SettledData`: the server's defined fields merged in, its undefined fields cleared, and the save stamped, or the error recorded; saving ends, and the screen goes back only when the save fulfilled |
| ContactMethodManager.SaveCallbacks | components/settings/ContactMethodManager.tsx:69-75 | a blank draft calls nothing; add mode calls onAdd and edit mode calls onEdit, with the trimmed draft |
| ContactMethodManager.ContactMethodEditor.OpenAdd | components/settings/ContactMethodManager.tsx:57-60 | the modal opens in add mode with an empty draft |
| ContactMethodManager.ContactMethodEditor.OpenEdit | components/settings/ContactMethodManager.tsx:61-64 | the modal opens on the item with its text |
| ContactMethodManager.ContactMethodEditor.SetDraft | components/settings/ContactMethodManager.tsx:55 | the draft is replaced |
| ContactMethodManager.ContactMethodEditor.CloseModal | components/settings/ContactMethodManager.tsx:65-68 | the modal closes, and the draft clears |
| ContactMethodManager.ContactMethodEditor.SaveDraft | components/settings/ContactMethodManager.tsx:69-75 | the callbacks follow `SaveCallbacks`; a blank draft keeps the modal open, and otherwise it closes |
| ManageContactMethod.MethodOf | components/settings/ManageContactMethod.tsx:10-47 | "email" and "call" pick their lists, and everything else is SMS |
| ManageContactMethod.Prepended | components/settings/ManageContactMethod.tsx:24 | onAdd puts the value first |
| ManageContactMethod.Replaced | components/settings/ManageContactMethod.tsx:25 | onEdit replaces exactly index i |
| ManageContactMethod.ReplacedOutside | components/settings/ManageContactMethod.tsx:25 | an out-of-range edit changes nothing |
| ManageContactMethod.AfterCallback | components/settings/ManageContactMethod.tsx:15-58 | a callback changes only the shown method's list |
| ManageContactMethod.OtherListsUntouched | components/settings/ManageContactMethod.tsx:15-58 | any sequence of callbacks leaves the other two lists alone |
| ManageContactMethod.AddCount | components/settings/ManageContactMethod.tsx:24 | the adds are at most the callbacks |
| ManageContactMethod.ShownLength | components/settings/ManageContactMethod.tsx:24-25 | the shown list grows by one per add, and edits keep its length |
| ManageContactMethod.SaveUpdatesShownList | components/settings/ContactMethodManager.tsx:69-75 | saving a draft prepends it, replaces the edited item, or, when blank, leaves the list as it was |
| Notifications.Kept | components/dashboard/notifications/Notifications.tsx:79 | the search keeps exactly the matching notices |
| Notifications.Matches | components/dashboard/notifications/Notifications.tsx:79 | a blank query matches every notice, and a matching query's trimmed text is no longer than the notice |
| Notifications.BlankQueryKeepsAll | components/dashboard/notifications/Notifications.tsx:79 | a blank query keeps every notice, in order |
| Notifications.Insert | components/dashboard/notifications/Notifications.tsx:80 | insertion adds the notice once |
| Notifications.InsertKeepsOrder | components/dashboard/notifications/Notifications.tsx:80 | insertion keeps the list newest first |
| Notifications.SortNewestFirst | components/dashboard/notifications/Notifications.tsx:80 | the sort is a permutation |
| Notifications.SortedNewestFirst | components/dashboard/notifications/Notifications.tsx:80 | the sort orders newest first |
| Notifications.PreviousDay | components/dashboard/notifications/Notifications.tsx:45-46 | yesterday is the same month's previous day, when there is one |
| Notifications.DayLabel | components/dashboard/notifications/Notifications.tsx:38-54 | "Today", then "Yesterday", then the formatted date |
| Notifications.RoundDiv | components/dashboard/notifications/Notifications.tsx:59-61 | `Math.round(n / d)` is the nearest integer, with halves rounded up |
| Notifications.TimeLabel | components/dashboard/notifications/Notifications.tsx:56-71 | an "hr ago" label counts 1 to 35 hours and an "m ago" label 1 to 29 minutes |
| Notifications.TimeText | components/dashboard/notifications/Notifications.tsx:63-70 | the printed hours or minutes read back with parseInt as the label's count, and the clock text keeps its length |
| Notifications.TimeLabelThresholds | components/dashboard/notifications/Notifications.tsx:56-71 | clock time from 35 hours 29.5 minutes of age (127,770,000 ms), "hr ago" from 29.5 minutes, "m ago" from 30 seconds, and "Just now" below that |
| Notifications.Labels | components/dashboard/notifications/Notifications.tsx:83-89 | there are no more section labels than notices |
| Notifications.WithLabel | components/dashboard/notifications/Notifications.tsx:83-89 | a section holds no more than all notices |
| Notifications.LabelsIff | components/dashboard/notifications/Notifications.tsx:83-89 | a label is listed exactly when some notice carries it |
| Notifications.LabelsDistinct | components/dashboard/notifications/Notifications.tsx:83-89 | labels are listed once each |
| Notifications.WithLabelIff | components/dashboard/notifications/Notifications.tsx:83-89 | a section holds exactly the notices with its label |
| Notifications.GroupsProperties | components/dashboard/notifications/Notifications.tsx:83-89 | sections have distinct labels and are non-empty; each notice sits under its own label, and every notice appears |
| Notifications.UnlistedIsEmpty | components/dashboard/notifications/Notifications.tsx:83-89 | an unlisted label has no notices |
| Notifications.GroupByDay | components/dashboard/notifications/Notifications.tsx:83-89 | the Map loop yields the sections in first-appearance order |
| Notifications.Grouped | components/dashboard/notifications/Notifications.tsx:77-90 | the screen's sections group the filtered, sorted notices by day label |

## Left out

- HTTP transport, JSON bodies and headers are not modelled. A request is a datatype value, and success comes from the client's oracle. The status GET's `data` and the fetched medical conditions are parameters.
- `new Date().toISOString()` and every other wall-clock read are not modelled. The current time is a parameter, and ISO formatting is left abstract.
- `Intl.DateTimeFormat` is not modelled. The day heading of older notices and the clock text are parameters, and local-day arithmetic is a parameter function.
- `Number()` is modelled only on text of digits and dots. Other text, such as an exponent or surrounding spaces, is treated as NaN. The sanitiser never produces such text, but stored values reloaded into the inputs might contain it.
- Printing a floating-point number as text, when a stored weight, height or fitness value is reloaded into an input, is a parameter function.
- The 100 ms token back-off, the 100 ms splash delay and the 500 ms debounce are not modelled as time. The debounce is an armed timer that `FireSyncTimer` fires. A new `UpdateData` replaces it, `Unmount` clears it, and the effect cleanup keyed on pending (`PendingSyncCleanup`) clears it whenever an operation changes the pending flag. Only the controller's operations are tied to the timer. A `syncPendingData` run outside them is not.
- Concurrency is not modelled. `Promise.all` in `syncAllHealthData`, and the background POSTs that the weight, height, fitness and medical screens do not await, run in a fixed order, after the goNext work they race with.
- AsyncStorage (`saveProgress`/`loadProgress`) and the hook's app-state handler are not modelled. The handler is never subscribed, so it never calls `syncPendingData`.
- HealthKit reads are parameters: samples, per-day step counts, workouts, read failures and the hour-bucket key function.
- HealthSync.HeartRateRecordOf: samples carry an integer bpm, so `Math.round` of a fractional reading is not modelled.
- HealthSync.StepRecordOf: day step counts are integers, so `Math.round(item.steps)` (src/lib/healthSync.ts:216) of a fractional HealthKit sum is not modelled.
- HealthSync.SyncAllHealthData: the heart-rate result is tied to `SyncHeartRate` only through its failure and empty cases and `Consistent`, because that sync is a method and not a function.
- The Retry button of the "Save Failed" alert re-enters the screen's handler. It is represented by the `RetryOrSkip` answer of `ScreenGate.AfterSave` and not modelled as recursion. With the client as written, the alert is unreachable.
- Navigation is the returned route value. The router stack, segments beyond the first, and fonts are parameters.
- The login, signup, goals, train and moods screens, the auth thunks, the profile thunks' HTTP bodies, and the other context files are not part of this model. A profile save's settled reply is a parameter of `CreateOrUpdateProfile`.
- JsText.ToLower: maps only A-Z. JavaScript also lowercases non-ASCII letters, so "Ä" and "ä" match in the notification search but not in the model.
- JsText.ToUpper: maps only a-z. JavaScript also uppercases non-ASCII letters ("é" becomes "É") and can lengthen the text ("ß" becomes "SS"), so the kept length holds only for the ASCII mapping modelled. `LowerChar` and `UpperChar` are the per-character maps behind both, and `AccountInformation.Initial` inherits the ASCII-only upper-casing.
- ChangePassword.Strong: the 8-character minimum counts characters. JavaScript's `length` counts UTF-16 code units, so a password with characters outside the Basic Multilingual Plane can be long enough in JavaScript and too short here ("Aa1!😀😀" has length 8 there and 6 here). Every other string length and `charAt` in the model counts characters too.
- ContactMethodManager.ContactMethodEditor.OpenEdit requires an index within the list. Only the rendered rows call it.
- A field set to `undefined` in a Redux spread is modelled as an absent key.
