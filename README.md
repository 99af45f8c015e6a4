# artist-space registration core, in Dafny

This project models the logic at the core of artist-space, a web application where artists register, choose a plan and submit a proof of payment. The behaviour is modelled in Dafny and properties are proved about it. The project covers:

- **The artist-registration wizard** (`wizard.dfy`). It is a class with a step counter confined to 1..5 and the accumulated partial record. The record is a `map<Field, Value>`, and the wizard merges each patch into it with a right-biased shallow merge, as object spread does. `Value.Undefined` is a key that is present with the value `undefined`. Step 4 hands up such keys, and they overwrite.
- **The five wizard steps** (`step1_account.dfy` … `step5_plan.dfy`), the proof-of-payment form (`upload_proof_form.dfy`) and the visitor sign-up form (`register_form.dfy`).
  - Each component is a class whose fields are its React state.
  - Each submit handler is a method. Its ensures ties the new state to a pure function of the guard chain, which returns the first failing guard's message or the patch handed up.
  - The two regular expressions are written out as predicates. The email pattern is stated as the pattern reads and also computed, and a lemma proves the two agree.
  - The selected-image gate (5 MiB, `image/` type) is shared by step 3 and the proof form (`image_files.dfy`).
- **The plan tables**: `PLAN_LIMITS` with `getPlanLimits` and `canUseFeature` (`plans.dfy`), and `PLAN_PRICING` with the price and savings arithmetic of step 5.
- **The server actions** `registerArtist`, `submitPaymentProof`, `signUp` and `signIn` (`artist_actions.dfy`, `payment_actions.dfy`, `auth_actions.dfy`).
  - Each action has a specification function, `…Run`. It gives the result and the ordered requests issued, for given backend replies.
  - Each action also has a method that issues the same requests one stage at a time through a `Client` object with a ghost request log.
  - The backend is not modelled. Its replies are parameters (`backend.dfy`), and `Call<T>` stands for a call that may throw inside a `try`.
  - Lemmas prove the short-circuit order, the exact rows written and that nothing is ever undone.
- **The identity helpers** of `lib/auth/helpers.ts` (`auth_helpers.dfy`). They are functions of the session reply and the `users` table.
- **The pieces of ECMAScript the forms depend on** (`ecmascript.dfy`): the `\s` class, `parseInt` with no radix (section 19.2.5 of ECMA-262), `parseFloat` on integral numerals (section 19.2.4) and `Number.prototype.toString` on integers. Round-trip lemmas connect printing and parsing.

Step 3 checks a file's size and type when the file is selected, and its submit handler only checks that all three files are present.

The model also keeps two consequences of JavaScript truthiness:

- Step 5 tests `result.error` for truthiness. A credential error whose message is empty therefore navigates to the payment instructions with the id written `undefined` (`PlanStep.CompletionTarget`).
- The sign-up form likewise treats an empty error message as success.

## Model

| member | source | states |
|---|---|---|
| Types.WireNamesInjective | types/index.ts:1-13 | distinct members of the role, plan and period unions have distinct stored names |
| Types.Contains | config/plans.ts:65 | the front-to-back scan behind `some(f => f === feature)` here and `includes` in `lib/auth/helpers.ts` finds an element iff it is listed |
| Registration.Merge | components/artist/registration-wizard.tsx:23-25 | the merged record has the keys of both; patch keys take the patch's value, the others keep the old value |
| Registration.MergeConforms | components/artist/registration-wizard.tsx:23-25 | merging two well-typed partial records gives a well-typed partial record |
| Registration.MergeIdempotent | components/artist/registration-wizard.tsx:23-25 | merging the same patch twice equals merging it once |
| Registration.MergeAssociative | components/artist/registration-wizard.tsx:23-25 | two merges in a row equal one merge of the merged patches |
| Registration.MergeDisjointCommutes | components/artist/registration-wizard.tsx:23-25 | patches with disjoint keys can be merged in either order |
| Registration.MergeHeldPatch | components/artist/registration-wizard.tsx:23-25 | a patch the record already holds leaves it unchanged |
| Registration.MergeOutsidePatch | components/artist/registration-wizard.tsx:23-25 | a field outside the patch keeps its presence and its value, optional fields included |
| Registration.TextOr | components/artist/registration-steps/step-1-account.tsx:15-17 | `data.f \|\| fallback`: the stored text when it is present and non-empty, the fallback otherwise |
| Registration.ToRegistrationData | components/artist/registration-steps/step-5-plan.tsx:68 | the cast of a complete record carries each field's stored value; an optional field is present exactly when the record holds a value of its type |
| Registration.EarlierStepsTyped | types/artist-registration.ts:1-28 | a well-typed record holding the keys of steps 1 to 4 holds a text in each required text field among them and a number in `age` |
| Registration.AllStepsComplete | types/artist-registration.ts:1-28 | a well-typed record holding the keys of all five steps is a complete `ArtistRegistrationData` |
| Wizard.InitialFormData | components/artist/registration-wizard.tsx:15-18 | the initial record holds exactly the plan defaults and is well typed |
| Wizard.ArtistRegistrationWizard.constructor | components/artist/registration-wizard.tsx:14-18 | the wizard starts at step 1 with the initial record |
| Wizard.ArtistRegistrationWizard.UpdateFormData | components/artist/registration-wizard.tsx:23-25 | the record becomes the merge of the old record and the patch; typing and the populated invariant are kept |
| Wizard.ArtistRegistrationWizard.NextStep | components/artist/registration-wizard.tsx:27-31 | the step grows by one below 5 and stays at 5; the step type keeps it within 1..5 |
| Wizard.ArtistRegistrationWizard.PrevStep | components/artist/registration-wizard.tsx:33-37 | the step drops by one above 1 and stays at 1; the record is not touched |
| Wizard.ArtistRegistrationWizard.OnNext | components/artist/registration-wizard.tsx:60-101 | steps 1–4 merge their patch, then advance; a patch with the current step's keys keeps every earlier step's keys present |
| Wizard.ArtistRegistrationWizard.OnComplete | components/artist/registration-wizard.tsx:103-108 | step 5 merges its patch without moving the step |
| Wizard.BackThenResubmit | components/artist/registration-wizard.tsx:70-78 | going back and resubmitting a patch the record holds restores the step and the record exactly |
| Wizard.PopulatedAtLastStepIsComplete | components/artist/registration-steps/step-5-plan.tsx:68 | at step 5 the populated record merged with the plan selection is complete, so the final cast is sound |
| EcmaScript.IsWhitespace | components/artist/registration-steps/step-4-contact-bio.tsx:40 | the `\s` class, a reference definition: the WhiteSpace and LineTerminator code points of ECMAScript; `DigitIsNotWhitespace` proves no decimal digit is in it |
| EcmaScript.StripWhitespace | components/artist/registration-steps/step-4-contact-bio.tsx:40 | `replace(/\s/g, '')` leaves no whitespace, never lengthens, and leaves whitespace-free text unchanged |
| EcmaScript.StripWhitespaceAppend | components/artist/registration-steps/step-4-contact-bio.tsx:40 | deleting whitespace distributes over concatenation |
| EcmaScript.IndexOf | components/artist/registration-steps/step-1-account.tsx:40 | the position found holds the character and no earlier position does |
| EcmaScript.StartsWith | components/artist/registration-steps/step-3-verification.tsx:34 | `startsWith(prefix)`, a reference definition: the text begins with the prefix; `ImageFiles.ImageFileError` states the type gate through it |
| EcmaScript.DigitPrefix | components/artist/registration-steps/step-2-personal-info.tsx:34 | the longest prefix of digits of the radix: all digits, and the next character is not one |
| EcmaScript.TrimStart | components/artist/registration-steps/step-2-personal-info.tsx:34 | a suffix of the input that starts with a non-whitespace character, after only whitespace |
| EcmaScript.ParseInt | components/artist/registration-steps/step-2-personal-info.tsx:34 | `parseInt` with no radix: blank text, and text whose first visible character is neither a sign nor a digit, is NaN; only a leading minus gives a negative number |
| EcmaScript.ParseMagnitude | components/artist/registration-steps/step-2-personal-info.tsx:34 | a magnitude is read only from text that starts with a decimal digit |
| EcmaScript.ParseIntReadsDecimalPrefix | components/artist/registration-steps/step-2-personal-info.tsx:34 | `parseInt` reads the leading decimal numeral after whitespace, whatever follows it, except a lone `0` before `x` |
| EcmaScript.NatToDecimal | components/artist/upload-proof-form.tsx:83 | `toString` of a non-negative integer is a non-empty decimal numeral without leading zeros whose value is the integer |
| EcmaScript.IntToString | components/artist/registration-steps/step-2-personal-info.tsx:18 | `toString` writes a minus exactly for a negative integer, then decimal digits whose value is its magnitude |
| EcmaScript.IntToStringRoundTrip | components/artist/registration-steps/step-2-personal-info.tsx:18 | `parseInt` reads back what `toString` writes, for every integer |
| EcmaScript.ParseFloatIntegral | actions/payment-actions.ts:14 | `parseFloat`: blank text, and text whose first visible character is neither a sign nor a digit, is NaN; only a leading minus gives a negative number; `0x…` reads as 0, not as a hexadecimal numeral |
| EcmaScript.NatToDecimalFloatRoundTrip | actions/payment-actions.ts:14 | `parseFloat` reads back what `toString` writes, for every non-negative integer |
| ImageFiles.ImageFileError | components/artist/registration-steps/step-3-verification.tsx:27-37 | a file is accepted iff it is at most 5 MiB with an `image/` type; size is tested first, so an oversized file always gets the size message |
| ImageFiles.SizeBoundary | components/artist/registration-steps/step-3-verification.tsx:28-31 | scenario: exactly 5 MiB passes; one byte more is refused |
| AccountStep.EmailShapeMatchesPattern | components/artist/registration-steps/step-1-account.tsx:40-44 | the computed email test holds iff the text matches the pattern as stated: one `@`, three non-empty runs of non-space, non-`@` characters, the last two split by a `.` |
| AccountStep.ShapeMatchesPattern | components/artist/registration-steps/step-1-account.tsx:40-44 | every text the computed test accepts matches the pattern |
| AccountStep.PatternHasShape | components/artist/registration-steps/step-1-account.tsx:40-44 | every text the pattern matches passes the computed test |
| AccountStep.MatchesEmailPattern | components/artist/registration-steps/step-1-account.tsx:40 | the email regular expression as it reads, a reference definition; `EmailShapeMatchesPattern` proves the computed test equal to it |
| AccountStep.IsEmailShape | components/artist/registration-steps/step-1-account.tsx:40-44 | the computed email test; `ShapeMatchesPattern` and `PatternHasShape` prove it agrees with the pattern in both directions |
| AccountStep.AccountResult | components/artist/registration-steps/step-1-account.tsx:20-47 | each message is given exactly when its guard is the first to fail; acceptance iff all four guards pass, with exactly the three fields as patch |
| AccountStep.PasswordLengthBoundary | components/artist/registration-steps/step-1-account.tsx:35-38 | scenario: with a well-formed email, a 6-character password passes and a 5-character one gets the length message |
| AccountStep.Step1Account.constructor | components/artist/registration-steps/step-1-account.tsx:15-18 | the fields start from the record's texts, or empty |
| AccountStep.Step1Account.HandleSubmit | components/artist/registration-steps/step-1-account.tsx:20-47 | a rejection shows its message and leaves the wizard alone; an acceptance clears it, merges the patch and moves to step 2 |
| PersonalInfoStep.PersonalInfoResult | components/artist/registration-steps/step-2-personal-info.tsx:24-53 | acceptance iff all six fields are filled and 18 ≤ `parseInt(age)` ≤ 120; each message exactly when its guard fails first |
| PersonalInfoStep.PersonalInfoPatch | components/artist/registration-steps/step-2-personal-info.tsx:45-52 | the patch holds exactly the six fields, the age as a number |
| PersonalInfoStep.AgeText | components/artist/registration-steps/step-2-personal-info.tsx:18 | the age field's starting text is empty without a stored age, and a stored age reads back through `parseInt` as itself |
| PersonalInfoStep.AgeReadsLeadingNumeral | components/artist/registration-steps/step-2-personal-info.tsx:34-52 | scenario: the age "30.9" is accepted and stored as 30, since `parseInt("30.9")` is 30 |
| PersonalInfoStep.ResubmitGivesSamePatch | components/artist/registration-steps/step-2-personal-info.tsx:16-21 | coming back to the step, the fields start from its own patch, and submitting them hands up the same patch |
| PersonalInfoStep.Step2PersonalInfo.constructor | components/artist/registration-steps/step-2-personal-info.tsx:16-22 | the fields start from the record, the age through `toString`, the country defaulting to Chile |
| PersonalInfoStep.Step2PersonalInfo.HandleSubmit | components/artist/registration-steps/step-2-personal-info.tsx:24-53 | a rejection shows its message; an acceptance merges the patch and moves to step 3 |
| VerificationStep.VerificationResult | components/artist/registration-steps/step-3-verification.tsx:44-59 | acceptance iff all three slots are filled, with exactly those three files as patch |
| VerificationStep.Step3Verification.constructor | components/artist/registration-steps/step-3-verification.tsx:15-19 | the slots start empty whatever the record holds |
| VerificationStep.Step3Verification.HandleFileChange | components/artist/registration-steps/step-3-verification.tsx:21-42 | no file changes nothing; a refused file shows its message and keeps every slot; an accepted one fills only its own slot and clears the message |
| VerificationStep.Step3Verification.ClearSlot | components/artist/registration-steps/step-3-verification.tsx:106-184 | an "Eliminar" button empties its own slot, keeps the other two, and the step then refuses to continue with the missing-documents message |
| VerificationStep.Step3Verification.HandleSubmit | components/artist/registration-steps/step-3-verification.tsx:44-59 | a rejection shows its message; an acceptance merges the files and moves to step 4 |
| ContactBioStep.PhonePatternIsInternational | components/artist/registration-steps/step-4-contact-bio.tsx:39 | a matching number has 2 to 16 characters, all digits but an optional leading `+`, and does not start with 0 |
| ContactBioStep.MatchesPhonePattern | components/artist/registration-steps/step-4-contact-bio.tsx:39 | the phone regular expression as it reads; `PhonePatternIsInternational` proves that a match spells an international number |
| ContactBioStep.ContactBioResult | components/artist/registration-steps/step-4-contact-bio.tsx:22-61 | acceptance iff 50 ≤ bio length ≤ 500, an empty or matching whitespace-stripped number, and an empty or parsable URL; each message exactly when its guard fails first |
| ContactBioStep.ContactBioPatch | components/artist/registration-steps/step-4-contact-bio.tsx:56-60 | the patch holds the three keys, with an empty number or website given as `undefined` |
| ContactBioStep.TextOrUndefined | components/artist/registration-steps/step-4-contact-bio.tsx:58-59 | `x \|\| undefined`: an empty text becomes `undefined`, any other is kept as text |
| ContactBioStep.NumberStoredAsTyped | components/artist/registration-steps/step-4-contact-bio.tsx:38-60 | whitespace inside a number is ignored by the check but kept in the patch |
| ContactBioStep.AllWhitespaceStripsToEmpty | components/artist/registration-steps/step-4-contact-bio.tsx:40 | a run of whitespace strips to the empty text |
| ContactBioStep.StripAroundWhitespace | components/artist/registration-steps/step-4-contact-bio.tsx:40 | whitespace typed between two whitespace-free parts of a number strips away, leaving the parts joined |
| ContactBioStep.Step4ContactBio.constructor | components/artist/registration-steps/step-4-contact-bio.tsx:17-20 | the fields start from the record's texts, or empty |
| ContactBioStep.Step4ContactBio.HandleSubmit | components/artist/registration-steps/step-4-contact-bio.tsx:22-61 | a rejection shows its message; an acceptance merges the patch and moves to step 5 |
| PlanStep.QuarterlySavesOnEveryPlan | components/artist/registration-steps/step-5-plan.tsx:52-58 | quarterly savings are three monthly prices minus the quarterly price, positive on every plan; monthly saves nothing |
| PlanStep.DiscountMatchesSavings | components/artist/registration-steps/step-5-plan.tsx:27-43 | each listed discount is the savings over three monthly payments, to the nearest whole percent |
| PlanStep.LargestDiscountIs33 | components/artist/registration-steps/step-5-plan.tsx:27-43 | no listed discount exceeds 33% and premium's is 33%, as the quarterly badge says |
| PlanStep.Pricing | components/artist/registration-steps/step-5-plan.tsx:27-43 | every plan has a positive monthly price, one quarter costs less than three months, and each discount lies strictly between 0 and 100% |
| PlanStep.SelectedPrice | components/artist/registration-steps/step-5-plan.tsx:52-54 | the selected price is positive: the monthly entry for a monthly period, the quarterly entry, below three monthly payments, otherwise |
| PlanStep.MonthlySavings | components/artist/registration-steps/step-5-plan.tsx:56-58 | the savings are never negative, positive exactly for a quarterly period, and add up with the quarterly price to three monthly payments |
| PlanStep.PlanSelection | components/artist/registration-steps/step-5-plan.tsx:65 | the selection patch holds exactly the plan and the period |
| PlanStep.InitialPlan | components/artist/registration-steps/step-5-plan.tsx:47 | the record's plan, or silver |
| PlanStep.InitialPeriod | components/artist/registration-steps/step-5-plan.tsx:48 | the record's period, or monthly |
| PlanStep.FinalData | components/artist/registration-steps/step-5-plan.tsx:68 | the dispatched data carries the local plan and period, whatever the record held before |
| PlanStep.FinalDataAsEntered | components/artist/registration-steps/step-5-plan.tsx:68 | the dispatched data holds the account, personal, bio, photo and number fields exactly as the record holds them |
| PlanStep.CompletionTarget | components/artist/registration-steps/step-5-plan.tsx:72-78 | the handler stays iff the result has a non-empty error; a registration goes to the payment instructions of its artist |
| PlanStep.SuccessShowsPaymentInstructions | components/artist/registration-steps/step-5-plan.tsx:70-78 | after a full registration the browser goes to the new user's payment instructions |
| PlanStep.FailureStaysOnPlanStep | components/artist/registration-steps/step-5-plan.tsx:70-74 | every failed registration keeps the user on the step, except a credential error without a message |
| PlanStep.Step5Plan.constructor | components/artist/registration-steps/step-5-plan.tsx:45-50 | the selection starts from the record or the defaults, not loading, no message |
| PlanStep.Step5Plan.SelectPlan | components/artist/registration-steps/step-5-plan.tsx:133 | a plan card click selects that plan |
| PlanStep.Step5Plan.SelectPeriod | components/artist/registration-steps/step-5-plan.tsx:98-108 | a toggle click selects that period |
| PlanStep.Step5Plan.Price | components/artist/registration-steps/step-5-plan.tsx:52-54 | the price shown is positive and is the table entry of the selected plan and period |
| PlanStep.Step5Plan.Savings | components/artist/registration-steps/step-5-plan.tsx:56-58 | the savings shown are never negative and positive, so the savings line appears, exactly for a quarterly period |
| PlanStep.Step5Plan.HandleComplete | components/artist/registration-steps/step-5-plan.tsx:60-79 | the wizard merges the selection and stays at 5; `registerArtist` gets the final data; an error is shown and ends loading, else the browser goes to the payment instructions |
| PlanStep.Step5Plan.Dispatch | components/artist/registration-steps/step-5-plan.tsx:70-78 | the requests are those of `registerArtist` on the data given; a non-empty error is shown and ends loading, anything else navigates with loading still on |
| Plans.CanUseFeature | config/plans.ts:63-66 | a plan may use a feature iff its table entry lists it |
| Plans.UnknownFeatureIsNeverAvailable | config/plans.ts:63-66 | a feature no plan lists is available to no plan |
| Plans.LimitsIncreaseWithTier | config/plans.ts:3-28 | artworks, daily statuses and services grow strictly from silver to gold to premium |
| Plans.GoldFeaturesWithinPremium | config/plans.ts:16-24 | whatever gold may use, premium may use |
| Plans.BasicProfileOnlySilver | config/plans.ts:8-24 | `basic_profile` is available to silver only |
| Plans.PlanLimitsTable | config/plans.ts:3-28 | every tier lists some feature and none twice; its service limit equals its daily-status limit and does not exceed its artwork limit |
| Plans.GetPlanLimits | config/plans.ts:59-61 | the plan's table entry, whose landing section and display name differ from every other plan's |
| Backend.FileExtension | actions/artist-actions.ts:116 | the extension is the dot-free text after the last `.`, or the whole name when it has none |
| Backend.ExtensionAfterLastDot | actions/artist-actions.ts:116-117 | whatever precedes the last `.`, the extension is the text after it |
| Backend.UploadPath | actions/artist-actions.ts:117 | the storage path begins with the base and a dot, and keeps the file's extension |
| ArtistActions.OrNull | actions/artist-actions.ts:74-75 | an absent or empty contact field is stored as null, any other as given |
| ArtistActions.UploadRequests | actions/artist-actions.ts:46-56 | a present document is uploaded once under `<base>.<ext>` in the documents bucket; an absent one triggers nothing |
| ArtistActions.StoredUrl | actions/artist-actions.ts:46-56 | a document's URL is the public URL iff it was present and its upload succeeded, null otherwise |
| ArtistActions.ProfileRow | actions/artist-actions.ts:59-79 | the profile row is keyed by the user, pending, with the plan, nested location, null-mapped contacts and the three URLs |
| ArtistActions.DocumentUploads | actions/artist-actions.ts:45-56 | at most three uploads, all to the documents bucket |
| ArtistActions.SaveStages | actions/artist-actions.ts:58-101 | the profile insert first; its failure stops before the subscription with its message; otherwise the subscription insert follows; success iff both inserts succeeded, with the user's id |
| ArtistActions.UserStages | actions/artist-actions.ts:31-101 | the users row first; its failure stops everything with its message; otherwise the uploads, then the profile and subscription stages; success iff all three writes succeeded |
| ArtistActions.RegisterArtistRun | actions/artist-actions.ts:6-107 | the credential comes first; each credential failure stops with its message; with a user the later stages follow; success iff every stage succeeded, with the new user's id |
| ArtistActions.UsersRowSecond | actions/artist-actions.ts:29-43 | with a user, the users row is the second request; its failure ends the run after two requests with its message |
| ArtistActions.UserStagesNeverRollBack | actions/artist-actions.ts:31-101 | no request after the credential deletes or removes anything |
| ArtistActions.RegisterNeverRollsBack | actions/artist-actions.ts:6-107 | no request issued deletes or removes anything |
| ArtistActions.UserStagesWriteExpectedRows | actions/artist-actions.ts:40-99 | after the credential, a profile insert follows a successful users row and carries the row built from the data and upload replies; a subscription insert follows a successful profile and is the pending subscription |
| ArtistActions.RegisterWritesExpectedRows | actions/artist-actions.ts:58-99 | any profile insert carries the row built from the data and upload replies; any subscription insert follows a successful profile and is the pending subscription |
| ArtistActions.PendingSubscription | actions/artist-actions.ts:86-95 | the new artist's subscription row: the user's id, the chosen plan and period, status `pending_payment`; `RegisterWritesExpectedRows` proves every subscription insert carries it, and only after the credential, the users row and the profile succeeded |
| ArtistActions.PresentDocumentsAreUploaded | actions/artist-actions.ts:45-56 | once the users row exists, each present document is uploaded under `<userId>/<slot>.<ext>` |
| ArtistActions.AbsentDocumentIsNotUploaded | actions/artist-actions.ts:46-56 | without documents nothing is uploaded and the profile stores three null URLs |
| ArtistActions.DocumentPathsDistinct | actions/artist-actions.ts:47-55 | the three documents of one user go to three distinct paths |
| ArtistActions.RegisterArtist | actions/artist-actions.ts:6-107 | the method returns the specified result and issues the specified requests in order |
| ArtistActions.CreateUser | actions/artist-actions.ts:31-101 | stages 2 to 5 return and issue what `UserStages` specifies |
| ArtistActions.CreateArtistProfile | actions/artist-actions.ts:45-101 | stages 3 to 5 issue the uploads, then what `SaveStages` specifies for the row built from the upload replies |
| ArtistActions.SaveProfile | actions/artist-actions.ts:58-101 | stages 4 and 5 return and issue what `SaveStages` specifies |
| ArtistActions.UploadFile | actions/artist-actions.ts:110-141 | the helper returns the stored URL and issues the upload of a present file only |
| PaymentActions.FormGetFirst | actions/payment-actions.ts:9-17 | `get` returns the first entry appended under a key |
| PaymentActions.FormGet | actions/payment-actions.ts:9-17 | `formData.get`; `FormGetFirst` proves it returns the first entry appended under the key |
| PaymentActions.ReadFormData | actions/payment-actions.ts:9-17 | a missing proof file or text entry leaves nothing to read; otherwise each field is the entry `get` finds, the amount through `parseFloat` |
| PaymentActions.BuildFormData | components/artist/upload-proof-form.tsx:77-86 | the form appends nine entries, under the nine keys in order |
| PaymentActions.BuiltIdentifiers | actions/payment-actions.ts:9-11 | the action reads back the proof file and both ids the form appended |
| PaymentActions.BuiltPlanEntries | actions/payment-actions.ts:12-14 | the action reads back the plan, the period and the amount's text |
| PaymentActions.BuiltPaymentEntries | actions/payment-actions.ts:15-17 | the action reads back the method, the reference and the date |
| PaymentActions.FormDataRoundTrip | actions/payment-actions.ts:9-17 | the action reads back exactly the payment the form sent, the amount through its decimal text |
| PaymentActions.ProofPath | actions/payment-actions.ts:20-21 | the proof path is `<artistId>/payment-proof-<now>.<ext>` |
| PaymentActions.NullIfEmpty | actions/payment-actions.ts:52 | an empty reference is stored as null, any other as given |
| PaymentActions.PaymentRow | actions/payment-actions.ts:41-55 | the row carries the submitted texts, the amount in CLP, the proof URL, the date as `paid_at`, and is awaiting verification |
| PaymentActions.ProofStages | actions/payment-actions.ts:19-73 | upload first; a failed upload writes nothing; a stored proof is followed by the recording stages with its URL; every failure has a non-empty message |
| PaymentActions.RecordStages | actions/payment-actions.ts:40-68 | the payment request first; its failure leaves the subscription alone; the status update last; success iff the request succeeded and the update did not throw; every failure has a non-empty message |
| PaymentActions.ProofStagesOrder | actions/payment-actions.ts:19-68 | after a stored proof the payment request is second and the status update third, only after a successful request |
| PaymentActions.ProofStagesNeverRollBack | actions/payment-actions.ts:19-73 | no stage after reading the form deletes or removes anything |
| PaymentActions.SubmitPaymentProofRun | actions/payment-actions.ts:5-74 | unreadable form data fails before any request; readable data runs the stages |
| PaymentActions.PaymentNeverRollsBack | actions/payment-actions.ts:5-74 | no request issued deletes or removes anything |
| PaymentActions.SubmittedPaymentIsRecorded | actions/payment-actions.ts:20-55 | for what the form sends, the upload keeps the file's extension and the payment request records exactly that payment |
| PaymentActions.SubmitPaymentProof | actions/payment-actions.ts:5-74 | the method returns the specified result and issues the specified requests in order |
| PaymentActions.UploadProof | actions/payment-actions.ts:19-73 | the stages after reading the form return and issue what `ProofStages` specifies |
| PaymentActions.RecordPayment | actions/payment-actions.ts:40-68 | the request and the update return and issue what `RecordStages` specifies |
| UploadProofForm.LocalRejection | components/artist/upload-proof-form.tsx:65-75 | a missing proof is reported first, then a missing date; nothing otherwise |
| UploadProofForm.SubmitDisabled | components/artist/upload-proof-form.tsx:223 | the button's `disabled` expression; `EnabledIffGuardsPass` proves it false exactly when nothing is in flight and the local guards pass |
| UploadProofForm.EnabledIffGuardsPass | components/artist/upload-proof-form.tsx:223 | the button is enabled exactly when nothing is in flight and the local guards pass |
| UploadProofForm.PaymentErrorsAreShown | components/artist/upload-proof-form.tsx:90-95 | every failure `submitPaymentProof` reports has a non-empty message, so the form shows it |
| UploadProofForm.UploadProofForm.constructor | components/artist/upload-proof-form.tsx:24-38 | the payment comes from the page; no proof, empty texts, not loading |
| UploadProofForm.UploadProofForm.Submission | components/artist/upload-proof-form.tsx:77-86 | the payment sent carries the form's proof, amount, method name, reference and date |
| UploadProofForm.UploadProofForm.HandleFileChange | components/artist/upload-proof-form.tsx:40-58 | no file changes nothing; a refused file shows its message and keeps the proof; an accepted one becomes the proof |
| UploadProofForm.UploadProofForm.RemoveProof | components/artist/upload-proof-form.tsx:163 | the "Eliminar" button drops the proof; the handler would then report the missing proof, and the submit button is disabled |
| UploadProofForm.UploadProofForm.SetPaymentReference | components/artist/upload-proof-form.tsx:183 | the reference input sets the reference |
| UploadProofForm.UploadProofForm.SetPaymentDate | components/artist/upload-proof-form.tsx:203 | the date input sets the date |
| UploadProofForm.UploadProofForm.HandleSubmit | components/artist/upload-proof-form.tsx:60-96 | a local rejection shows its message and sends nothing; otherwise the nine entries are submitted, an error is shown, success goes to pending verification |
| AuthActions.SignUpRun | actions/auth-actions.ts:7-64 | the visitor credential first, then the users row; each failure message; a profile row only with a name after a users row; success iff the users row succeeded |
| AuthActions.SignUpWithoutName | actions/auth-actions.ts:50-56 | without a non-empty name no profile row is requested |
| AuthActions.HasName | actions/auth-actions.ts:50 | `if (name)`, a reference definition: a name was given and is not empty; `SignUpWithoutName` and `SignUpRun` state what depends on it |
| AuthActions.SignUpNeverRollsBack | actions/auth-actions.ts:7-64 | no request issued deletes or removes anything |
| AuthActions.SignUp | actions/auth-actions.ts:7-64 | the method returns the specified result and issues the specified requests in order |
| AuthActions.SignIn | actions/auth-actions.ts:66-80 | an error carries the check's message; otherwise the session's user |
| RegisterForm.PasswordRejection | components/auth/register-form.tsx:25-35 | a mismatch is reported first, then a short password; nothing otherwise |
| RegisterForm.WeakerThanAccountStep | components/auth/register-form.tsx:24-37 | the sign-up form's submit handler lets through a malformed email that step 1 of the wizard refuses |
| RegisterForm.SharedPasswordMessages | components/auth/register-form.tsx:25-35 | where the form refuses a password step 1 would see, the message is step 1's |
| RegisterForm.RegisterForm.constructor | components/auth/register-form.tsx:12-17 | all fields empty, not loading |
| RegisterForm.RegisterForm.HandleSubmit | components/auth/register-form.tsx:19-46 | a refused password sends nothing; otherwise `signUp` gets the email and password only; an error is shown, anything else goes to the login page |
| AuthHelpers.RowsWithId | lib/auth/helpers.ts:11-14 | `.eq('id', id)` selects exactly the rows with that id |
| AuthHelpers.UniqueRowSelected | lib/auth/helpers.ts:11-15 | a row whose id no other row shares is the only row selected |
| AuthHelpers.NoRowSelected | lib/auth/helpers.ts:11-15 | without a row of that id nothing is selected |
| AuthHelpers.GetCurrentUser | lib/auth/helpers.ts:4-18 | null without a session user; a current user is a row of the session user's id and the only one |
| AuthHelpers.UniqueRowIsCurrentUser | lib/auth/helpers.ts:11-17 | a session user with exactly one row is the current user |
| AuthHelpers.DuplicateRowsGiveNoUser | lib/auth/helpers.ts:15-17 | two rows with the session user's id leave no current user |
| AuthHelpers.RowsWithIdAppend | lib/auth/helpers.ts:11-14 | selecting from a concatenation concatenates the selections |
| AuthHelpers.GetUserRole | lib/auth/helpers.ts:20-23 | the current user's role, null exactly when there is no current user |
| AuthHelpers.IsAuthenticated | lib/auth/helpers.ts:25-28 | signed in exactly when the session has a user who has exactly one `users` row |
| AuthHelpers.IsAdmin | lib/auth/helpers.ts:30-33 | exactly when someone is signed in and their row has the admin role |
| AuthHelpers.IsArtist | lib/auth/helpers.ts:35-38 | exactly when someone is signed in and their row has the artist role |
| AuthHelpers.RolesExclusive | lib/auth/helpers.ts:30-38 | nobody is both admin and artist, and either role implies being authenticated |
| AuthHelpers.RequireAuth | lib/auth/helpers.ts:40-45 | fails with `Unauthorized` iff nobody is authenticated |
| AuthHelpers.RequireRole | lib/auth/helpers.ts:47-52 | passes iff the current user has a listed role; fails with `Forbidden` otherwise |
| AuthHelpers.RequireRoleProperties | lib/auth/helpers.ts:47-52 | an empty list admits nobody; passing a role check passes the authentication check; `[admin]` admits exactly admins |

## Left out

- Rendering: JSX, styling, icons, the progress bar percentage and the step titles, the file-size display and `formatCurrency`. None of it carries behaviour. The inline handlers that do change state are modelled as methods: the plan and period selectors, the reference and date inputs, and the "Eliminar" buttons (`ClearSlot`, `RemoveProof`).
- Payment instructions: the component that renders them relies only on the clipboard and a timer, so it is not modelled.
- Image CDN: the upload, watermark and configuration wrappers around it are not modelled; they are thin calls into a foreign library.
- The hosted backend itself: each reply is an input, and requests are recorded in a ghost log. The public URL of an upload arrives with its reply rather than from a separate `getPublicUrl` call.
- Navigation: router calls become returned `Navigation` values. Logging and async scheduling are not modelled.
- `revalidatePath` in `signIn` is not modelled. `signOut` is not modelled either: it only signs out, revalidates and redirects.
- URL parsing: `new URL(s)` in step 4 is the parameter `isUrl`; the URL parser is not re-implemented.
- `Date.now()` is the parameter `now`.
- Text length: lengths are counted in characters, not UTF-16 code units. A bio with characters outside the Basic Multilingual Plane can therefore measure differently here.
- EcmaScript.ParseFloatIntegral: reads only the integral part of a decimal numeral, which is all the proof form ever sends. Fractions, exponents and `Infinity` are not modelled.
- EcmaScript.NatToDecimal: does not model the exponent notation `toString` uses from 10^21 up.
- PaymentActions.ReadFormData, SubmitPaymentProofRun: form data with an entry missing or of the wrong kind is treated as a thrown error (the unexpected-error message, no requests). The source would instead go on with `null` texts, or throw only when the proof is missing. The form always sends all nine entries.
- PaymentActions.ReadFormData, SubmitPaymentProofRun: an amount that does not parse, or parses as negative, is also treated as unreadable. The source would store NaN for an amount that does not parse, and the negative number for a negative one. The upload-proof page hands the form the plan's price from the price table, which is positive.
- ArtistActions.RegisterArtistRun, PaymentActions.SubmitPaymentProofRun: creating the backend client, which the source does before the `try` in `registerArtist` and `submitPaymentProof`, is assumed not to throw. If it threw, the action would reject instead of returning a message. `PlanStep.Step5Plan.HandleComplete` and `UploadProofForm.UploadProofForm.HandleSubmit` would then never clear their loading flag, so their "a message or a navigation" outcome rests on this assumption.
- AuthActions.SignUpRun: the credential call and the inserts are not wrapped in a `try`, so a thrown reply is not modelled. The same holds for `SignIn`.
- AuthHelpers.GetCurrentUser: a failed `users` query is not modelled separately from "no row", since both give null.
- PlanStep.Step5Plan.HandleComplete: requires the wizard's record to hold every earlier step's keys (`Populated`). The wizard itself establishes and keeps that invariant, and the cast in the source assumes it.
- ArtistActions.UploadFile: the absent-file test guarding each call in the source (`data.profilePhoto ? … : null`) is folded into the helper.
- The `email` prop of the proof form is display-only and is not modelled.
- Browser constraint validation is not modelled: the `required` and `type="email"` attributes of the inputs, and the `max` of the payment-date input. The `disabled` state of inputs and buttons while loading is not modelled either. Each handler is modelled for any field values and any loading state, including those the browser would stop before the handler runs.
