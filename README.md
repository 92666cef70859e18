# Moolen client pages: a Dafny model

This project models the decision logic of three pages of the Moolen wellness web
client. Each page's React state becomes a Dafny class whose fields are the
component's `useState` variables. Each handler becomes a method, specified by a
pure transition function on a snapshot of those fields. The properties are lemmas
about the transition functions.

- `self_assessment.dfy` (module `SelfAssessmentPage`) covers the `AssessmentForm`
  questionnaire wizard:
  - the state fields `step`, `birthDate`, `currentQuestion`, `answers` and
    `selectedAnswer`;
  - the handlers `handleAgeSubmit`, `handleSelectAnswer` and `handleNext`;
  - `calculateAge` on (year, month, day) dates, with "today" passed as a parameter;
  - the `fieldNames.reduce` payload fold;
  - the `SummaryForm` presence check.

  The backend reply is a parameter of `HandleNext`. The handler's effect (alert,
  next question, or one request followed by navigation or an alert) is its result.
- `homepage.dfy` (module `HomePage`) covers:
  - `checkAuthStatus` over a `localStorage` modelled as a string-to-string map;
  - `JSON.parse`, modelled as a function parameter that returns None where the
    real one throws;
  - `handleProtectedRoute` and `handleMoodCheckIn`;
  - the four-entry feature table.
- `mood_photo_result.dfy` (module `MoodPhotoResult`) covers:
  - the `useEffect` that derives `moodResult`, `confidence` and `displayImageUrl`
    from `location.state`;
  - `getMoodBoxStyle`;
  - the two display conditions, for the image placeholder and the confidence line.
- `wrappers.dfy` holds the `Option` type and `Truthy`, the JavaScript truthiness test
  on a value that is a string or absent.

What None stands for depends on the field:

- `Form.birthDate`: None is the empty string of the date input.
- `Form.selectedAnswer`, and the mood page's `confidence` and `displayImageUrl`
  state: None is `null`.
- `Payload.age`: None is `undefined`, the value of `answers[0]` when nothing is
  recorded.
- `BackendReply.assessmentResult` and `SummaryState.assessmentResult`: None is any
  falsy `assessment_result`.
- `LocalStorage.GetItem`: None is the `null` returned for a missing key.
- `JSON.parse` (the `parse` parameter): None means the call throws.
- `LocationState.mood` and `LocationState.capturedImageUrl`: None is an absent or
  `null` property. The empty string is `Some("")`, and `Truthy` rejects it.
- `LocationState.confidence`: None is a value whose type is not number.

The invariant of the wizard is `ValidForm`. In the questions step, the index
satisfies `0 <= currentQuestion <= 18`. Entry 0 of `answers` is the age, and the
later entries are "Yes"/"No" replies. The length is `currentQuestion + 1` until the
last question is answered. After that the index stays at 18 and at least 20 entries
exist. Every handler keeps the invariant: each method has `requires Valid()` and
`ensures Valid()`.

Two behaviours of the submission step follow the code as it stands:

- The code does not cap `answers` at 20 entries, and it has no guard against a
  second submission while one is in flight. On a reply without `success` the wizard
  stays at question 18 with its answers. Each further selection plus Finish appends
  again, so `answers` grows to 21 entries and beyond. The payload still reads only
  indices 1..19, so the retry resends the originally recorded replies. This is
  proved in `FailedSubmissionKeepsAnswers` and `RetryResendsRecordedAnswers`.
- A network or JSON error in the submission propagates out of the handler: there is
  no `try`/`catch`. So the only failure branch is a reply whose `success` is falsy.

The feature table `FEATURES` (client/src/pages/Homepage.jsx:100-124) is a constant.
It is specified by `FeatureProtection` and `FeatureAccess`.

## Model

| member | source | states |
|---|---|---|
| `SelfAssessmentPage.CalculateAge` | client/src/pages/Self-assessmentPage.jsx:143-152 | No contract of its own; specified by `AgeIsYearDifferenceOrOneLess`, `AgeCountsCompletedYears` and `BirthdayExample`. |
| `SelfAssessmentPage.YesFlag` | client/src/pages/Self-assessmentPage.jsx:176 | No contract of its own; specified by `FoldFields` and `PayloadFieldValues`. |
| `SelfAssessmentPage.AssessmentData` | client/src/pages/Self-assessmentPage.jsx:173-179 | No contract of its own; specified by `PayloadAge`, `PayloadKeys`, `PayloadFieldValues`, `RetryResendsRecordedAnswers` and `AllYesPayload`. |
| `SelfAssessmentPage.SummaryForm` | client/src/pages/Self-assessmentPage.jsx:299-328 | No contract of its own; specified by `SummaryFallback` and `SuccessfulSubmissionShowsResult`. |
| `SelfAssessmentPage.ChangeBirthDate` | client/src/pages/Self-assessmentPage.jsx:221 | No contract of its own; specified by `AssessmentForm.HandleBirthDateChange`. |
| `SelfAssessmentPage.SubmitAge` | client/src/pages/Self-assessmentPage.jsx:132-141 | No contract of its own; specified by `SubmitAgeWithoutDate`, `SubmitAgeResets` and `SubmitAgePreservesValid`. |
| `SelfAssessmentPage.SelectAnswer` | client/src/pages/Self-assessmentPage.jsx:154-156 | No contract of its own; specified by `SelectAnswerPreservesValid`. |
| `SelfAssessmentPage.Next` | client/src/pages/Self-assessmentPage.jsx:158-170 | No contract of its own; specified by `NextWithoutSelection`, `NextWithSelection`, `NextPreservesValid` and `FailedSubmissionKeepsAnswers`. |
| `SelfAssessmentPage.NextEffectOf` | client/src/pages/Self-assessmentPage.jsx:158-192 | No contract of its own; specified by `NextWithoutSelection`, `SubmissionOnlyFromLastQuestion`, `FirstFinishPayload`, `FailedSubmissionKeepsAnswers` and `SuccessfulSubmissionShowsResult`. |
| `SelfAssessmentPage.ValidForm` | client/src/pages/Self-assessmentPage.jsx:95-170 | No contract of its own: the wizard invariant. Specified by `InitialFormValid` and the three preservation lemmas. |
| `SelfAssessmentPage.CatalogInLockstep` | client/src/pages/Self-assessmentPage.jsx:101-129 | There are 19 questions and 19 field names, so the last index is 18, and no field name repeats. |
| `SelfAssessmentPage.AgeIsYearDifferenceOrOneLess` | client/src/pages/Self-assessmentPage.jsx:143-152 | The age is the year difference or one less. It is one less exactly when today's (month, day) comes before the birth (month, day). |
| `SelfAssessmentPage.AgeCountsCompletedYears` | client/src/pages/Self-assessmentPage.jsx:143-152 | The age is the number of completed years: the k-th anniversary of the birth date is on or before today exactly when k <= age. |
| `SelfAssessmentPage.BirthdayExample` | client/src/pages/Self-assessmentPage.jsx:143-152 | 2000-06-15 gives 23 on 2024-06-14 and 24 on 2024-06-15. |
| `SelfAssessmentPage.FoldFields` | client/src/pages/Self-assessmentPage.jsx:175-178 | The reduce fold has exactly the folded names as keys, and every value is 0 or 1. With distinct names, name k maps to 1 exactly when answer k + 1 is "Yes". |
| `SelfAssessmentPage.FoldFieldsCount` | client/src/pages/Self-assessmentPage.jsx:123-129 | With distinct names, the fold has one key per name. |
| `SelfAssessmentPage.PayloadAge` | client/src/pages/Self-assessmentPage.jsx:173-174 | The payload's `age` is `answers[0]`. |
| `SelfAssessmentPage.PayloadKeys` | client/src/pages/Self-assessmentPage.jsx:173-179 | The payload's fields are exactly the 19 field names. |
| `SelfAssessmentPage.PayloadFieldValues` | client/src/pages/Self-assessmentPage.jsx:175-178 | Field i is 1 when `updatedAnswers[i + 1]` is "Yes". It is 0 otherwise, including when that index is past the end. |
| `SelfAssessmentPage.FoldIgnoresLateAnswers` | client/src/pages/Self-assessmentPage.jsx:175-177 | The fold does not read answers past index n. |
| `SelfAssessmentPage.RetryResendsRecordedAnswers` | client/src/pages/Self-assessmentPage.jsx:164-177 | Once 20 entries exist, entries appended later leave the payload unchanged. |
| `SelfAssessmentPage.AllYesPayload` | client/src/pages/Self-assessmentPage.jsx:173-179 | Nineteen "Yes" replies give 1 in every field. |
| `SelfAssessmentPage.SummaryFallback` | client/src/pages/Self-assessmentPage.jsx:303-327 | The "No assessment data found" fallback is shown exactly when the navigation state or its `assessment_result` is absent. Otherwise the result's label, description, confidence and tips are shown. |
| `SelfAssessmentPage.InitialFormValid` | client/src/pages/Self-assessmentPage.jsx:95-99 | The initial state satisfies the wizard invariant. |
| `SelfAssessmentPage.SubmitAgeWithoutDate` | client/src/pages/Self-assessmentPage.jsx:133-136 | With an empty birth date, the age submit changes no state. |
| `SelfAssessmentPage.SubmitAgeResets` | client/src/pages/Self-assessmentPage.jsx:138-140 | With a birth date, `answers` becomes exactly `[age]` (a reset, not an append) and the step becomes "questions". The other fields are unchanged. |
| `SelfAssessmentPage.NextWithoutSelection` | client/src/pages/Self-assessmentPage.jsx:159-162 | With no selected answer, Next changes nothing and only alerts. |
| `SelfAssessmentPage.NextWithSelection` | client/src/pages/Self-assessmentPage.jsx:164-170 | Next appends exactly the selected answer and clears the selection. It increments `currentQuestion` by one exactly when it is below 18. The step and birth date are unchanged. |
| `SelfAssessmentPage.SubmitAgePreservesValid` | client/src/pages/Self-assessmentPage.jsx:132-141 | Leaving the age step establishes the questions-step invariant. |
| `SelfAssessmentPage.SelectAnswerPreservesValid` | client/src/pages/Self-assessmentPage.jsx:154-156 | Selecting "Yes" or "No" keeps the invariant. |
| `SelfAssessmentPage.NextPreservesValid` | client/src/pages/Self-assessmentPage.jsx:164-170 | Next keeps the invariant: 0 <= index <= 18, and `|answers| = index + 1` until the last answer, then at least 20 entries with the index at 18. |
| `SelfAssessmentPage.SubmissionOnlyFromLastQuestion` | client/src/pages/Self-assessmentPage.jsx:169-182 | A request is issued exactly when an answer is selected at question 18. Its payload is built from the recorded answers, with `age` equal to the stored age. |
| `SelfAssessmentPage.FirstFinishPayload` | client/src/pages/Self-assessmentPage.jsx:164-179 | At the first Finish, 20 entries are recorded and field i reflects reply i + 1. |
| `SelfAssessmentPage.FailedSubmissionKeepsAnswers` | client/src/pages/Self-assessmentPage.jsx:164-190 | A reply without `success` causes no navigation. The index stays at 18 and every earlier answer is kept. A further answer plus Finish appends again (21 or more entries) and sends the same payload. |
| `SelfAssessmentPage.SuccessfulSubmissionShowsResult` | client/src/pages/Self-assessmentPage.jsx:183-187 | A reply with `success` navigates to the summary with its `assessment_result`. The summary shows that result, or the fallback when the result is absent. |
| `SelfAssessmentPage.AssessmentForm.constructor` | client/src/pages/Self-assessmentPage.jsx:95-99 | Initial state: age step, empty birth date, question 0, no answers, no selection. |
| `SelfAssessmentPage.AssessmentForm.HandleBirthDateChange` | client/src/pages/Self-assessmentPage.jsx:218-223 | The date input replaces `birthDate` and nothing else. |
| `SelfAssessmentPage.AssessmentForm.HandleAgeSubmit` | client/src/pages/Self-assessmentPage.jsx:132-141 | The new state is `SubmitAge` of the old one, and the invariant holds. `accepted` is false exactly when the birth date was empty. |
| `SelfAssessmentPage.AssessmentForm.HandleSelectAnswer` | client/src/pages/Self-assessmentPage.jsx:154-156 | Sets `selectedAnswer` and keeps the invariant. |
| `SelfAssessmentPage.AssessmentForm.HandleNext` | client/src/pages/Self-assessmentPage.jsx:158-192 | The new state is `Next` of the old one, whatever the reply, and the invariant holds. The effect is the alert, the next question, or the submission with its navigation or alert. |
| `HomePage.CheckAuth` | client/src/pages/Homepage.jsx:14-30 | No contract of its own; specified by `MissingCredentialsChangeNothing`, `ParsedUserLogsIn`, `CorruptUserClearsBothKeys` and `MountOutcome`. |
| `HomePage.RouteTarget` | client/src/pages/Homepage.jsx:36-43 | No contract of its own; specified by `Homepage.HandleProtectedRoute`. |
| `HomePage.FeatureTarget` | client/src/pages/Homepage.jsx:125-154 | No contract of its own; specified by `FeatureAccess` and `Homepage.OpenFeature`. |
| `HomePage.LocalStorage.GetItem` | client/src/pages/Homepage.jsx:15-16 | Returns the stored string, or null for a missing key. |
| `HomePage.LocalStorage.RemoveItem` | client/src/pages/Homepage.jsx:26-27 | Removes exactly that key. |
| `HomePage.MissingCredentialsChangeNothing` | client/src/pages/Homepage.jsx:15-18 | If `authToken` or `userData` is missing or empty, neither the state nor the storage changes. |
| `HomePage.ParsedUserLogsIn` | client/src/pages/Homepage.jsx:18-22 | With both keys present and `userData` parsable, `user` is the parsed value and `isLoggedIn` is true. The storage is untouched. |
| `HomePage.CorruptUserClearsBothKeys` | client/src/pages/Homepage.jsx:23-28 | If parsing fails, exactly `authToken` and `userData` are removed. Every other key keeps its value, and the login state and user are unchanged. |
| `HomePage.MountOutcome` | client/src/pages/Homepage.jsx:8-33 | From the initial state, the page is logged in exactly when both keys are truthy and the user record parses. Otherwise the user stays null. Storage is unchanged or has lost exactly the two keys. |
| `HomePage.FeatureProtection` | client/src/pages/Homepage.jsx:100-124 | There are four features. `/track-mood`, `/journal` and `/self-assessment` are protected and `/article` is not. |
| `HomePage.FeatureAccess` | client/src/pages/Homepage.jsx:125-154 | A listed feature opens its own path exactly when the user is logged in or the feature is `/article`. Otherwise `/login` opens. |
| `HomePage.Homepage.constructor` | client/src/pages/Homepage.jsx:8-9 | Initial state: not logged in, user null. |
| `HomePage.Homepage.CheckAuthStatus` | client/src/pages/Homepage.jsx:14-30 | The new login state, user and storage are `CheckAuth` of the old ones. |
| `HomePage.Homepage.HandleProtectedRoute` | client/src/pages/Homepage.jsx:36-43 | Not logged in: the target is `/login`. Logged in: the target is exactly `path`. |
| `HomePage.Homepage.HandleMoodCheckIn` | client/src/pages/Homepage.jsx:46-48 | The same target as guarding `/track-mood`. |
| `HomePage.Homepage.OpenFeature` | client/src/pages/Homepage.jsx:127-154 | A protected entry goes through the guard, which gives `/login` when logged out. An unprotected entry links to its path. |
| `MoodPhotoResult.ApplyState` | client/src/pages/MoodPhotoResultPage.jsx:11-32 | No contract of its own; specified by `FieldsUpdateIndependently`, `NoStateShowsNoData` and `FirstRenderDisplay`. |
| `MoodPhotoResult.ShowsImagePlaceholder` | client/src/pages/MoodPhotoResultPage.jsx:70-80 | No contract of its own; specified by `NoStateShowsNoData` and `FirstRenderDisplay`. |
| `MoodPhotoResult.ShowsConfidence` | client/src/pages/MoodPhotoResultPage.jsx:61 | No contract of its own; specified by `NoStateShowsNoData` and `FirstRenderDisplay`. |
| `MoodPhotoResult.MoodBoxStyle` | client/src/pages/MoodPhotoResultPage.jsx:35-42 | No contract of its own; specified by `MoodBoxStyleIgnoresCase`, `MoodBoxStyleBuckets`, `MixedCaseExamples`, `DefaultByLength`, `DefaultByFirstLetter` and `NoMoodDataIsDefault`. |
| `MoodPhotoResult.BoxClasses` | client/src/pages/MoodPhotoResultPage.jsx:37-41 | No contract of its own; specified by `BoxClassesDistinct`. |
| `MoodPhotoResult.BoxClassesDistinct` | client/src/pages/MoodPhotoResultPage.jsx:37-41 | The five styles have five different class strings, so each bucket gets its own style. |
| `MoodPhotoResult.FieldsUpdateIndependently` | client/src/pages/MoodPhotoResultPage.jsx:12-22 | With navigation state present, each field updates independently. The mood is replaced only by a truthy `mood`, the confidence only by a number, and the image only by a truthy URL. Fields that are not replaced keep their previous values. |
| `MoodPhotoResult.NoStateShowsNoData` | client/src/pages/MoodPhotoResultPage.jsx:23-27 | Without navigation state, the page shows "No mood data available." with no confidence line and the image placeholder, in the default colour. |
| `MoodPhotoResult.FirstRenderDisplay` | client/src/pages/MoodPhotoResultPage.jsx:61-81 | From the initial view, the placeholder is shown exactly when no truthy image URL arrived. The confidence line is shown exactly when a number arrived. |
| `MoodPhotoResult.ToLower` | client/src/pages/MoodPhotoResultPage.jsx:36 | Lower-casing keeps the length and lower-cases each character A to Z. |
| `MoodPhotoResult.MoodBoxStyleIgnoresCase` | client/src/pages/MoodPhotoResultPage.jsx:35-42 | A mood and its lower-case form get the same style. |
| `MoodPhotoResult.MoodBoxStyleBuckets` | client/src/pages/MoodPhotoResultPage.jsx:35-42 | `happy`, `sad`, `angry` and `neutral`, in any case, each get their own style. Every other string gets the purple default. |
| `MoodPhotoResult.MixedCaseExamples` | client/src/pages/MoodPhotoResultPage.jsx:37-40 | "HAPPY", "Sad", "aNgRy" and "Neutral" reach their buckets. |
| `MoodPhotoResult.DefaultByLength` | client/src/pages/MoodPhotoResultPage.jsx:36-41 | A mood whose length is not 3, 5 or 7 gets the default style. |
| `MoodPhotoResult.DefaultByFirstLetter` | client/src/pages/MoodPhotoResultPage.jsx:36-41 | A mood whose lower-cased first letter is not h, s, a or n gets the default style. |
| `MoodPhotoResult.NoMoodDataIsDefault` | client/src/pages/MoodPhotoResultPage.jsx:41 | "Unknown" and "No mood data available." get the purple default. |
| `MoodPhotoResult.MoodPhotoResultPage.constructor` | client/src/pages/MoodPhotoResultPage.jsx:7-9 | Initial state: mood "Unknown", confidence null, image null. |
| `MoodPhotoResult.MoodPhotoResultPage.ApplyLocationState` | client/src/pages/MoodPhotoResultPage.jsx:11-32 | The new view is `ApplyState` of the old view and `location.state`. |

## Left out

- All JSX markup and styling: the landing components `SelfAssessment` and
  `AssessmentStart`, the review and footer sections, the welcome banner, and the
  question text and "Next"/"Finish" label choice. Only the colour bucket of the
  mood box and the two display conditions of the result page are kept.
- The submission request itself (`fetch`, `response.json`, the backend URL).
  This is network I/O: the parsed reply is an input of `HandleNext`. A network or
  JSON error propagates out of the handler, so it has no branch in the model.
  Awaiting the reply, and a second click while a request is pending, are not
  modelled.
- JavaScript `Date` parsing, time zones and the clock. Dates are (year, month, day)
  integers, and "today" is a parameter. In the browser, `new Date("YYYY-MM-DD")` is
  UTC midnight while `getDate` reads local time. West of UTC the birth day therefore
  reads as one day earlier. The model does not capture that.
- `JSON.parse` and `localStorage`: the parser is an abstract function, and storage
  is a map from string to string.
- `alert`, `console.log`/`console.warn` and `navigate`. These are effects without
  state. Navigation appears only as a returned target path or effect value.
- Floating-point display: the progress-bar percentages and
  `(confidence * 100).toFixed(2)`. The confidence is a `real`. JavaScript's NaN and
  Infinity are not modelled.
- The module-level 20-entry `questions` array. It is shadowed inside
  `AssessmentForm` and has no behaviour.
- `mood` and `capturedImageUrl` of types other than string. A truthy non-string
  mood would make `toLowerCase` throw.
- MoodPhotoResult.ToLower: lower-cases only the letters A to Z, not all of
  Unicode. No other character lower-cases to the letters of the four mood names,
  so the buckets are exact.
- The key order of the JSON payload object.
