# Service A checkout workflow: a verified Dafny model

Service A guides a company-registration request through a checkout. The
flow has seven steps. The company form is filled in. The request is
reviewed. The bill is shown. Payment is made at an external provider. A
payment confirmation follows. A shipping address is entered. The request
is then complete. An xstate machine holds the position in that flow
together with five progress flags. The React root component also keeps a
five-step wizard counter, and its first step is a five-field company form
with client-side validation.

This project models three parts of that system:

- `checkout_machine.dfy` (module `CheckoutMachine`) models the workflow
  machine.
  - Its declared transition table is `On`.
  - Its guards are `GuardHolds`.
  - xstate's rule for choosing a transition is `Select`: candidates are
    tried in declared order and the first that is enabled fires.
  - Applying an `assign` is `Assign`, which overwrites only the named flags.
  - `Step` combines these into one total transition function, and `Run`
    folds it over a sequence of events.
  - `Table` writes every row of the same table out by hand, as an
    independent reference. `StepIsTable` proves the two agree.
  - The started actor is the class `Actor`. Its `Send` replaces the actor's
    snapshot with the result of `Step`.
  - `CreateCheckoutMachine` starts the actor fresh or restores it from a
    snapshot.
  - `PredictNextTurnAction` is the side-effect-free lookahead.
- `company_form.dfy` (module `CompanyForm`) models the step-1 company form.
  - It has JavaScript's `trim` whitespace set, `.length` in UTF-16 code
    units and the `^\d+$` test.
  - It has the rule for each field and the error record built by
    `validateForm`.
  - The class `FormState` holds the hook state: form data, errors and
    touched flags. Its methods are `validateForm` and `handleFieldChange`,
    and it decides which error is displayed for a field.
  - `src/root.component.tsx` and `src/service/formEntry.tsx` contain the
    same code for `validateForm` and `handleFieldChange`, so `FormState`
    models both, and both are cited below.
  - The class `FormEntry` adds the read-only flag of the stand-alone form
    component.
- `root_wizard.dfy` (module `RootWizard`) models the wizard counter of the
  root component.
  - `handleNext` validates the form when on step 1.
  - `handlePrevious` goes back one step.
  - `handlePayment` behaves like `handleNext`.

xstate silently ignores an event the current step has no `on` entry for:
nothing is reported to the sender. `Step` returns the snapshot unchanged
(`HandledEvents`, `IgnoredEventIsIdempotent`). `Handles` says which
step/event pairs have an entry; the code exposes no such query.

## Model

| member | source | states |
|---|---|---|
| CheckoutMachine.Initial | src/machine/serviceA.ts:55-64 | A fresh machine is in `formEntry` with all five context flags false. |
| CheckoutMachine.Assign | src/machine/serviceA.ts:74-76 | An `assign` sets each named flag to its given value and leaves every other flag as it was. |
| CheckoutMachine.Select | src/machine/serviceA.ts:66-86 | The chosen candidate is enabled and no earlier candidate is (declared order, first enabled wins). No choice means that no candidate is enabled. |
| CheckoutMachine.Step | src/machine/serviceA.ts:65-184 | The next step is either the current one or the target of a transition declared for this step and event. An event the step has no entry for leaves the snapshot unchanged. |
| CheckoutMachine.StepIsTable | src/machine/serviceA.ts:65-184 | The generic interpreter over the declared table agrees with a hand-written row-by-row table of all seven steps and four events. |
| CheckoutMachine.FirstOrFallback | src/machine/serviceA.ts:66-86 | For one or two candidates whose last is unguarded, the first fires exactly when it is enabled, and the last fires otherwise. |
| CheckoutMachine.On | src/machine/serviceA.ts:65-184 | The declared `on` maps: every entry ends with an unguarded candidate, none has more than two candidates, and no transition is guarded by the registered `isPaymentCompleted` guard (declared at serviceA.ts:34-42). |
| CheckoutMachine.HandledEventsFire | src/machine/serviceA.ts:65-184 | An event the current step has an entry for always fires some transition; a failed guard falls back to the unguarded candidate. |
| CheckoutMachine.ValidatedNextGuards | src/machine/serviceA.ts:20-50 | `GuardHolds` for `isFormValid`, `isReviewed` and `isShippingValid`: each passes exactly on a `NEXT` whose `validStep` is true. |
| CheckoutMachine.GuardedNext | src/machine/serviceA.ts:66-169 | With the guards of serviceA.ts:20-33 and 43-50, `NEXT` with `validStep` moves `formEntry` to `awaitingReview` setting only `isFormValid`, and moves `awaitingReview` to `billingSummary` setting only `isReviewed`. It moves `shippingAddress` to `completed` setting only `isShippingValid` and `isRequestComplete`. Without `validStep` the snapshot is unchanged. |
| CheckoutMachine.BillingSummaryRoutes | src/machine/serviceA.ts:106-124 | From the bill, `NEXT` goes to `paymentSuccess` exactly when the context records a completed payment, and to `externalPayment` exactly when it does not. `PREVIOUS` goes to `awaitingReview`. Neither changes the context. |
| CheckoutMachine.ExternalPaymentOutcome | src/machine/serviceA.ts:125-141 | `PAYMENT_SUCCEEDED` goes to `paymentSuccess` and sets `isPaymentCompleted`. `PAYMENT_FAILED` goes to `billingSummary` and clears it. No other flag changes. |
| CheckoutMachine.LaterStepNavigation | src/machine/serviceA.ts:142-183 | `paymentSuccess` goes forward to `shippingAddress` and back to `billingSummary`. `shippingAddress` goes back to `paymentSuccess`. `completed` goes back to `billingSummary`. None of these changes the context. |
| CheckoutMachine.HandledEvents | src/machine/serviceA.ts:65-184 | Exactly which step/event pairs have an `on` entry, in both directions. |
| CheckoutMachine.IgnoredEventIsIdempotent | src/machine/serviceA.ts:65-184 | An event the current step does not handle changes nothing, so sending it again changes nothing either. |
| CheckoutMachine.OnlyPaymentFailedClears | src/machine/serviceA.ts:125-141 | If a step clears a flag, that flag is `isPaymentCompleted`, the step was `externalPayment` and the event was `PAYMENT_FAILED`. |
| CheckoutMachine.FlagsStaySet | src/machine/serviceA.ts:65-184 | Over any sequence of events, every flag other than `isPaymentCompleted` stays set once it is set. |
| CheckoutMachine.PaymentStaysCompleted | src/machine/serviceA.ts:125-141 | Over any sequence of events without `PAYMENT_FAILED`, a recorded payment stays recorded. |
| CheckoutMachine.GuardsReadTheirInputOnly | src/machine/serviceA.ts:20-53 | The four event guards do not depend on the context, and `hasPaymentCompletedInContext` does not depend on the event. |
| CheckoutMachine.Lookahead | src/machine/serviceA.ts:190 | The `transition(...)` lookahead of a `NEXT` without `validStep` differs from the current step exactly on `billingSummary` and `paymentSuccess`. |
| CheckoutMachine.LookaheadTable | src/machine/serviceA.ts:187-195 | The lookahead on `NEXT` without `validStep` is: from the bill, the payment step chosen by the context; `shippingAddress` from `paymentSuccess`; otherwise the current step. |
| CheckoutMachine.HappyPath | src/machine/serviceA.ts:65-184 | From a fresh start, the six events of a successful checkout reach `completed` with all five flags set. |
| CheckoutMachine.Actor.constructor | src/machine/serviceA.ts:198-204 | The actor starts with exactly the snapshot it is given. |
| CheckoutMachine.Actor.Send | src/machine/serviceA.ts:65-184 | Sending an event replaces the actor's snapshot with the result of `Step` on the old snapshot. |
| CheckoutMachine.CreateCheckoutMachine | src/machine/serviceA.ts:198-204 | A given snapshot is restored verbatim. Without one, the actor is in `formEntry` with all flags false. |
| CheckoutMachine.PredictNextTurnAction | src/machine/serviceA.ts:187-195 | There is no prediction exactly when there is no machine. Otherwise the prediction is the step a `NEXT` without `validStep` would reach, and the actor is unchanged. |
| CompanyForm.LeadingWhitespace | src/service/formEntry.tsx:141-142 | The count of leading characters removed by `trim` covers only whitespace, and the character after it is not whitespace. |
| CompanyForm.TrailingWhitespace | src/service/formEntry.tsx:141-142 | The count of trailing characters removed by `trim` covers only whitespace, and the character before it is not whitespace. |
| CompanyForm.Trim | src/service/formEntry.tsx:141-142 | `trim` returns the slice of the input that starts right after its leading white space and is followed only by white space; a non-empty result starts and ends with a non-whitespace character. |
| CompanyForm.BlankIffAllWhitespace | src/service/formEntry.tsx:141-142 | A value is blank after `trim` exactly when every character is JavaScript whitespace. |
| CompanyForm.TrimWhitespaceExamples | src/service/formEntry.tsx:141 | `IsJsWhitespace`, the set `trim` strips: the no-break space, the ideographic space and the byte-order mark are stripped, and the zero-width space and the next-line character are kept. |
| CompanyForm.Utf16Length | src/service/formEntry.tsx:143-144 | The JavaScript length of a string is between its number of code points and twice that; its exact value on every string follows from `Utf16LengthOfChar` and `Utf16LengthAppend`. |
| CompanyForm.Utf16LengthOfChar | src/service/formEntry.tsx:143 | One character has JavaScript length 2 when above U+FFFF and 1 otherwise. |
| CompanyForm.Utf16LengthAppend | src/service/formEntry.tsx:143 | The JavaScript length of a concatenation is the sum of the lengths, so together with the single-character case it gives the length of every string. |
| CompanyForm.Utf16LengthOfBmp | src/service/formEntry.tsx:143-144 | For text without characters above U+FFFF, the JavaScript length is the number of characters. |
| CompanyForm.ErrorCount | src/service/formEntry.tsx:167-168 | The error record counts as empty exactly when no field has an error. |
| CompanyForm.Errors | src/service/formEntry.tsx:138-169 | The error recorded for each field is that field's rule applied to the form data. |
| CompanyForm.ClearError | src/service/formEntry.tsx:176-179 | Clearing a field's error removes that error and keeps every other field's error. |
| CompanyForm.DigitsAreNotBlank | src/service/formEntry.tsx:155-165 | A value that passes `^\d+$` is never blank. |
| CompanyForm.DigitsPatternExamples | src/service/formEntry.tsx:157 | `IsAsciiDigits`, the test `^\d+$`: `"0042"` passes, while the empty string, `"-3"`, `"1.5"` and the Arabic-Indic digits fail. |
| CompanyForm.NumericFieldRule | src/service/formEntry.tsx:155-165 | `NumericFieldError`, the commercial register and capital rule: no error exactly when the untrimmed value is a non-empty run of ASCII digits, "required" exactly when every character is white space, and never "too short". |
| CompanyForm.TrailingSpaceIsRejected | src/root.component.tsx:247-257 | `"12 "` is not blank but fails the digits-only test, because the test reads the untrimmed value. |
| CompanyForm.CompanyNameRule | src/service/formEntry.tsx:141-145 | `CompanyNameError`: "required" exactly when every character is white space, "too short" exactly when not blank and under 3 UTF-16 code units, never "digits only". For text without characters above U+FFFF, the name passes exactly when it is not blank and has at least 3 characters. |
| CompanyForm.AstralCharactersCountTwice | src/service/formEntry.tsx:143 | `.length` counts UTF-16 code units, so a name made of one character above U+FFFF and one letter is long enough. |
| CompanyForm.SelectRule | src/service/formEntry.tsx:147-153 | `SelectError`, the company type and activity type rule: an error exactly when unset or empty, and that error is always "required". |
| CompanyForm.NoErrorsIff | src/root.component.tsx:230-261 | The form validates exactly when all of these hold: the name is non-blank with length at least 3, both selects are set, and both numeric fields are digit runs. |
| CompanyForm.EmptyFormIsInvalid | src/service/formEntry.tsx:25-36 | The initial empty form has a "required" error on every one of its five fields. |
| CompanyForm.With | src/service/formEntry.tsx:172-174 | A field update sets that field to the new value and leaves every other field unchanged. |
| CompanyForm.ChangeKeepsOtherVerdicts | src/root.component.tsx:264-272 | Changing one field never changes the rule's verdict on any other field. |
| CompanyForm.FormState.constructor | src/service/formEntry.tsx:25-34 | The form starts with empty text fields, unset selects, no errors and nothing touched. |
| CompanyForm.FormState.DisplayedError | src/service/formEntry.tsx:204 | A field shows its recorded error when touched and nothing when untouched. |
| CompanyForm.FormState.ValidateForm | src/root.component.tsx:230-261 | The stored error record is the rule applied to the current data, and the result is true exactly when that record is empty. |
| CompanyForm.FormState.HandleFieldChange | src/root.component.tsx:264-272 | Only the named field's value changes. Only that field becomes touched. Only its error is cleared, so it displays no error. |
| CompanyForm.FormState.TouchAllAndValidate | src/root.component.tsx:279-291 | The step-1 part of `handleNext`: all five fields become touched, the rule's errors are stored, the result is whether they are empty, and every field displays its recorded error. |
| CompanyForm.AllTouchedShowsErrors | src/service/formEntry.tsx:282-286 | Once every field is touched, each field displays exactly its recorded error. |
| CompanyForm.FormEntry.constructor | src/service/formEntry.tsx:25-36 | The stand-alone form starts empty, untouched, with no errors and not read-only. |
| RootWizard.NextStep | src/root.component.tsx:277-296 | "next" either keeps the counter or advances it by one. It advances exactly below step 5 and, on step 1, only with a valid form. It never leaves 1..5. |
| RootWizard.PreviousStep | src/root.component.tsx:298-302 | "previous" either keeps the counter or moves it back by one. It moves back exactly above step 1, and never leaves 1..5. |
| RootWizard.NavigationEffect | src/root.component.tsx:277-302 | On step 1, "next" moves to step 2 exactly when the form is valid, and stays exactly when it is not. On steps 2 to 4 it advances by one, and on step 5 it does nothing. "previous" leaves the counter unchanged exactly on step 1. |
| RootWizard.BackUndoesForward | src/root.component.tsx:293-302 | Below the last step, "previous" undoes a valid "next". Above the first step, a valid "next" undoes "previous". |
| RootWizard.NavigateStaysInRange | src/root.component.tsx:277-302 | Over any sequence of presses the counter stays within 1..5. Starting from step 1, it never leaves step 1 unless "next" is pressed with a valid form. |
| RootWizard.Root.constructor | src/root.component.tsx:214-227 | The wizard opens on step 4 with an empty, untouched form. |
| RootWizard.Root.HandleNext | src/root.component.tsx:277-296 | The counter moves as `NextStep` says, given the validity of the form. On step 1, all five fields are marked touched, the rule's errors are stored, and every field displays its error. Elsewhere the form is unchanged. The form data never changes. |
| RootWizard.Root.HandlePrevious | src/root.component.tsx:298-302 | The counter goes back by one unless on step 1, and stays within 1..5. |
| RootWizard.Root.HandlePayment | src/root.component.tsx:308-311 | The effect on the counter and the form is the same as `handleNext`. |

## Left out

- Rendering: the JSX trees, styles, the static step, fee and option tables, and the Arabic labels are presentational. They are not modelled.
- Error messages: the Arabic error strings are modelled by their kind, one of `Required`, `TooShort` or `DigitsOnly`. Each kind stands for the one message the source uses for that case.
- `alert` calls in `handlePayment` and `handleBackToServices`: these are user-interface side effects. `handleBackToServices` does nothing else.
- `src/shared-ui.ts` is not part of this model. It is asynchronous module loading.
- `src/ServiceWithStateMachine.jsx` is not part of this model. It renders by step name and sends `PREVIOUS`, or `NEXT` without `validStep`. The model treats a missing `validStep` as false, because the guard reads it as falsy.
- The antd forms of the review, billing and shipping steps are not part of this model. The library evaluates their rules, and only the resulting `validStep` reaches the machine.
- Persistence and session binding: `getSavedRequestById` is imported in `src/machine/serviceA.ts` but never used, and the storage module is not part of this model. The stand-alone form declares `setIsReadonly`, `lastProcessedRequestIdRef` and `formDataRef` (`src/service/formEntry.tsx:34-36`) but never uses them, and it calls no effect, so `isReadonly` stays `false`. The model keeps only that flag, with its initial value.
- xstate actor scheduling, subscriptions and re-rendering are not modelled. Only the transition semantics is modelled: `Send` is a synchronous replacement of the snapshot.
- React batching is not modelled. `handleNext` and `handleFieldChange` schedule their state updates, and the model applies them immediately in source order. This gives the same values on the next render.
- `webpack.config.js` is build configuration.
- `CompanyForm.ClearError`: the source sets the cleared key to `undefined` rather than deleting it. The model stores "no error", which reads the same wherever the form looks the error up.
- `handleFieldChange` accepts a number as well as a string. Every call site passes the string from a text input or a select, so the model takes strings only.
- `CompanyForm.Utf16Length`: strings are sequences of Unicode code points. A lone surrogate in a JavaScript string cannot be represented.
