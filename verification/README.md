# Scholarpath eligibility core in Dafny

Scholarpath is a React front-end. A visitor picks a category, fills in a
form, and is shown the government schemes they qualify for. This project
models the rules behind those pages as pure Dafny functions and proves
properties of them. Nothing is compiled or executed.

The modelled parts:

- **Merit, SC/ST/OBC, EWS and Woman forms.** The handler validates the
  required fields in a fixed order. The first blank field produces its
  alert and the handler returns. Otherwise every benefit rule is evaluated;
  a card is shown for each rule that holds, and a "not eligible" card is
  shown when none hold. The shared part lives in `Validation`:
  - `Check`: one required field;
  - `Outcome`: the alert raised, or the set of cards together with the
    "not eligible" flag.

  Each form module (`Merit`, `Sc`, `Ews`, `Woman`) supplies:
  - its own field order;
  - its own alerts;
  - one `Qualifies` rule per scheme.
- **Farmer page.** This covers:
  - the default scheme table and `runEligibility`: environment defaults,
    state filter, rule, and total benefit;
  - the per-category required documents and the document validator;
  - confirmation toggling;
  - what an upload records, including the Aadhaar number taken from OCR
    text;
  - the per-scheme "Steps to Apply" tracker with its rounded percentage.

  The modules are `Farmer`, `FarmerDocs`, `Aadhaar` and `StepTracker`.
- **FAQ chat.** A typed line is trimmed and looked up by its 1-based number
  or by its question, ignoring case. It appends the question and answer, or
  the fallback reply (`Chat`).
- **Account creation.** This is the validation branch of `subtn`: a hint,
  or the greeting that becomes the user name (`Account`).

`Text` holds the JavaScript string primitives the handlers rely on:
- `trim` with the ECMAScript white-space set;
- `\d` and `\w`;
- lower-casing;
- the digits of a string.

`Options` holds `Option`.

Modelling choices:
- **Numbers.** A numeric field is an `Entry`: the text typed and the value
  `Number(text)` gives. The value is a `real`.
- **Abstract parameters.**
  - OCR output is a parameter, so OCR itself is not modelled.
  - The upload's storage key is a parameter, so the clock that builds it is
    not modelled.
  - The file's MIME class is a parameter: image, PDF or other.
- **`Math.round` over a percentage** is modelled on exact rationals. The
  result is the nearest whole percentage, with halves rounded up.
- **Profile and documents.**
  - Optional numeric answers of the farmer profile are `Option<real>`.
  - `runEligibility` reads a missing answer as 0 and an empty state as
    "all".
  - Upload metadata is kept in `Docs.uploads`, separate from
    `Docs.confirmed`. In the source the uploads are the other keys of the
    same `profile.docs` object.

## Model

| member | source | states |
|---|---|---|
| Text.LeadingSpace | src/components/Chat.jsx:59 | the leading run of white space: all of it is white space and the character after it is not |
| Text.TrailingCut | src/components/Chat.jsx:59 | the trailing run of white space: all of it is white space and the character before it is not |
| Text.TrimStart | src/components/Merit.jsx:27-33 | removes exactly a leading run of white space: the result is a suffix of the input, what was cut is all white space, and the result does not start with white space |
| Text.TrimEnd | src/components/Merit.jsx:27-33 | symmetric to TrimStart: the result is a prefix, what was cut is all white space, and the result does not end with white space |
| Text.Trim | src/components/Chat.jsx:59 | `trim()` never lengthens the string and leaves no white space at either end |
| Text.TrimCutsSpaceAtEnds | src/components/Chat.jsx:59 | `trim()` returns an inner slice of its input with only white space on either side and none at either end of the result |
| Text.BlankIffTrimEmpty | src/components/Merit.jsx:27-33 | `!field.trim()` holds exactly when the field consists of white space only |
| Text.Lower | src/components/Chat.jsx:64 | lower-casing keeps the length and maps every character independently |
| Text.LowerIdempotent | src/components/Chat.jsx:64 | lower-casing twice is lower-casing once |
| Text.DigitsOf | src/components/Farmer.jsx:497 | `replace(/[^0-9]/g, '')` keeps only digits and never lengthens the string |
| Text.DigitsOfAppend | src/components/Farmer.jsx:497 | removing non-digits distributes over concatenation |
| Text.DigitsOfDigits | src/components/Farmer.jsx:497 | a string of digits is left unchanged |
| Text.DigitsOfOne | src/components/Farmer.jsx:497 | a digit is kept and any other character is dropped |
| Text.DigitsOfKeepsExactlyDigits | src/components/Farmer.jsx:497 | a character occurs in the result exactly when it is a digit occurring in the input |
| Validation.FirstMissing | src/components/Sc.jsx:25-30 | finds the first unfilled check: none exactly when all are filled, and every earlier check is filled |
| Validation.Submit | src/components/Sc.jsx:21-57 | a handler raises an alert exactly when some check fails, and that alert is the first failing field's; otherwise it shows the given cards and "not eligible" exactly when there are none |
| Validation.FirstUnfilledWins | src/components/Merit.jsx:27-33 | an unfilled field with every earlier one filled is the field whose alert is raised |
| Validation.AllFilledEvaluates | src/components/Merit.jsx:34-77 | with every field filled the cards are evaluated |
| Merit.Benefits | src/components/Merit.jsx:44-67 | a card is shown exactly when its rule holds. General applicants can get at most MYSY and AICTE. An income above 2500000 gets nothing |
| Merit.Submit | src/components/Merit.jsx:23-77 | an evaluated form shows the cards of Merit.Benefits, and "not eligible" exactly when none of the five rules holds |
| Merit.ValidationOrder | src/components/Merit.jsx:27-33 | the alert is that of the first blank field in the order name, mobile, email, 10th, 12th, income, category; a form is evaluated exactly when none is blank |
| Merit.AlertsDistinct | src/components/Merit.jsx:27-33 | the seven alerts differ from one another, so the alert shown names the blank field |
| Merit.Monotone | src/components/Merit.jsx:44-67 | higher marks and a lower income, same category, never remove a card |
| Merit.MysyBringsDigitalGujarat | src/components/Merit.jsx:44-52 | a non-General MYSY holder also gets Digital Gujarat |
| Sc.Benefits | src/components/Sc.jsx:38-52 | a card is shown exactly when its rule holds. Pre-Matric implies Hostel. EBC gets at most the loan, and gets it exactly up to 1000000. Any other caste gets nothing |
| Sc.Submit | src/components/Sc.jsx:21-57 | an evaluated form shows the cards of Sc.Benefits, and "not eligible" exactly when none of the four rules holds |
| Sc.ValidationOrder | src/components/Sc.jsx:25-30 | the alert is that of the first blank field in the order name, mobile, email, age, income, caste; a form is evaluated exactly when none is blank |
| Sc.AlertsDistinct | src/components/Sc.jsx:25-30 | the six alerts differ from one another, so the alert shown names the blank field |
| Sc.Monotone | src/components/Sc.jsx:38-52 | being younger or earning less, same caste, never removes a card |
| Ews.Benefits | src/components/Ews.jsx:37-56 | a card is shown exactly when its rule holds. There are no cards without a certificate. Scholarship implies Health, Health implies Education Loan, and Education Loan implies Reservation. There are no cards exactly when there is no certificate or the income exceeds 800000 |
| Ews.Submit | src/components/Ews.jsx:20-61 | an evaluated form shows "not eligible" exactly when there is no certificate or the income exceeds 800000 |
| Ews.ValidationOrder | src/components/Ews.jsx:24-29 | the alert is that of the first blank field in the order name, mobile, email, age, income, certificate; a form is evaluated exactly when none is blank |
| Ews.AlertsDistinct | src/components/Ews.jsx:24-29 | the six alerts differ from one another, so the alert shown names the blank field |
| Ews.AgeOnlyAffectsScholarship | src/components/Ews.jsx:37-56 | changing the age changes no card other than the scholarship |
| Ews.MonotoneInIncome | src/components/Ews.jsx:37-56 | earning less never removes a card |
| Woman.Benefits | src/components/Woman.jsx:43-56 | PMMVY is shown exactly when Janani Suraksha is. Widow pension and Beti Bachao follow their rules exactly. Without a bank account only widow pension and Beti Bachao can be shown |
| Woman.Submit | src/components/Woman.jsx:27-61 | an evaluated form shows the cards of Woman.Benefits, and "not eligible" exactly when none of the five rules holds |
| Woman.ValidationOrder | src/components/Woman.jsx:30-34 | the alert is that of the first blank text field in the order name, mobile, email, age, income |
| Woman.AnswerOrder | src/components/Woman.jsx:35-39 | once the text fields are filled, the alert is that of the first unanswered question in the order widow, pregnant, student, bank, working; a form is evaluated exactly when all are filled and answered |
| Woman.AlertsDistinct | src/components/Woman.jsx:30-39 | the ten alerts differ from one another, so the alert shown names the missing field or answer |
| Woman.Monotone | src/components/Woman.jsx:43-56 | being younger or earning less, same answers, never removes a card |
| Account.Submit | src/components/Createacc.jsx:28-46 | the hint is "enter the name" for an empty name, otherwise "enter the email" for an empty email, otherwise "enter the 8 digit password" for a password not of 8 characters. An account is created exactly when name and email are non-empty and the password has exactly 8 characters. The greeting is "welocome-" followed by the name |
| Account.PasswordCharactersIrrelevant | src/components/Createacc.jsx:38-41 | passwords of the same length are treated alike |
| Account.GreetingInjective | src/components/Createacc.jsx:44 | equal greetings come from equal names |
| Chat.DigitChar | src/components/Chat.jsx:63 | a digit value 0-9 becomes the decimal digit character with that value |
| Chat.Decimal | src/components/Chat.jsx:63 | `String(n)` is a non-empty run of digits, a single one exactly below 10 |
| Chat.DecimalDenotes | src/components/Chat.jsx:63 | `String(n)` is the decimal numeral of n: its digits denote n and it has no leading zero |
| Chat.FindFrom | src/components/Chat.jsx:62-66 | `findIndex` returns the first matching entry, and none exactly when no entry matches |
| Chat.ClickFaq | src/components/Chat.jsx:39-56 | the thread grows by the question followed by its answer, the earlier messages are kept, and the input is cleared |
| Chat.Send | src/components/Chat.jsx:58-88 | a blank line changes nothing. A matched line appends the entry's question and answer and clears the input. Any other line appends the trimmed text and the fallback reply, leaving the input as it was |
| Chat.FindFaq | src/components/Chat.jsx:62-66 | the entry selected matches the line and no earlier entry does, and nothing is selected exactly when no entry matches |
| Chat.FirstMatchFound | src/components/Chat.jsx:62-66 | a matching entry with no match before it is the one selected |
| Chat.PresetQuestionsDistinct | src/components/Chat.jsx:5-27 | any two different preset questions still differ after lower-casing, and every preset question is longer than one character |
| Chat.NumberSelectsFaq | src/components/Chat.jsx:62-66 | typing k, for 1 <= k <= 5, selects the k-th preset question |
| Chat.QuestionSelectsFaq | src/components/Chat.jsx:62-66 | typing a preset question in any case selects that question |
| Farmer.EnvOf | src/components/Farmer.jsx:396-404 | missing numeric answers read as 0 and an empty state as "all" |
| Farmer.Eligible | src/components/Farmer.jsx:406-415 | the filter never lengthens the table |
| Farmer.RunEligibility | src/components/Farmer.jsx:394-422 | the loop returns the filtered table and its total, and a scheme is returned exactly when it is in the table and kept |
| Farmer.CheckAndSave | src/components/Farmer.jsx:963-972 | a profile without a name is refused with "Please enter name", then one without an Aadhaar number with the Aadhaar alert; eligibility runs exactly when both are given, and then yields the filtered table and its total |
| Farmer.EligibleStep | src/components/Farmer.jsx:406-415 | one more scheme extends the result by that scheme exactly when it is kept |
| Farmer.Total | src/components/Farmer.jsx:418 | the sum of the amounts is non-negative when every amount is |
| Farmer.TotalAppend | src/components/Farmer.jsx:418 | appending a scheme adds its amount |
| Farmer.EligibleMembers | src/components/Farmer.jsx:406-415 | a scheme is in the result exactly when it is in the table, offered in the state, and its rule holds |
| Farmer.KeptPositions | src/components/Farmer.jsx:406-415 | the kept positions are increasing, each is kept, and every kept position is listed |
| Farmer.EligibleIsOrderedSelection | src/components/Farmer.jsx:406-415 | the result is the table restricted to the kept positions, in table order |
| Farmer.TotalBounds | src/components/Farmer.jsx:418 | with non-negative amounts the total lies between 0 and the table's sum |
| Farmer.TotalStep | src/components/Farmer.jsx:418 | each scheme adds its amount exactly when it is kept |
| Farmer.StateRestrictedNeedsState | src/components/Farmer.jsx:403-409 | a scheme limited to some state is never offered to a profile without a state |
| Farmer.DefaultEligibility | src/components/Farmer.jsx:68-241 | with the default table, Soil Health is always offered. PM-KISAN, KCC and PMFBY are offered exactly under their thresholds |
| Farmer.DefaultTotal | src/components/Farmer.jsx:68-241 | with the default table the total is 6000 for PM-KISAN plus 300000 for KCC when they apply, so between 0 and 306000 |
| FarmerDocs.RequiredDocs | src/components/Farmer.jsx:535-543 | Aadhaar comes first. A bank document is required exactly for financial and loan schemes, and land proof exactly for non-financial ones. No document is repeated |
| FarmerDocs.HasDocument | src/components/Farmer.jsx:311-314 | a document counts only once the confirmations hold an entry for it, so a profile with no confirmations holds no document |
| FarmerDocs.Missing | src/components/Farmer.jsx:958 | the missing list holds exactly the required documents not confirmed, keeps the first when it is missing, and of one document is that document exactly when it is unconfirmed |
| FarmerDocs.MissingAppend | src/components/Farmer.jsx:958 | the missing list of a concatenation is the missing list of the first part followed by that of the second, so the required order is kept |
| FarmerDocs.MissingInRequiredOrder | src/components/Farmer.jsx:949-960 | for each category the missing list is the unconfirmed documents in the order Aadhaar, bank, land proof, restricted to those the category requires |
| FarmerDocs.ValidateDocs | src/components/Farmer.jsx:949-960 | a scheme's documents are complete exactly when every required document is confirmed, and then nothing is missing. Without Aadhaar, Aadhaar heads the missing list |
| FarmerDocs.NothingConfirmedAllMissing | src/components/Farmer.jsx:949-960 | with no confirmations the missing list is the whole required list, in order |
| FarmerDocs.EmptyProfileMissesAll | src/components/Farmer.jsx:250-262 | a fresh profile fails every scheme's document check and lists all of the category's documents in order |
| FarmerDocs.MissingDependsOnConfirmations | src/components/Farmer.jsx:311-314 | the missing list depends on the confirmations alone |
| FarmerDocs.ToggleConfirm | src/components/Farmer.jsx:329-336 | toggling negates one document's confirmation and leaves every other confirmation and the rest of the profile as it was |
| FarmerDocs.ToggleTwice | src/components/Farmer.jsx:329-336 | toggling a document twice restores every confirmation and every scheme's check |
| FarmerDocs.UploadDocument | src/components/Farmer.jsx:481-532 | the upload is recorded under the key with the file's name and size and the document kind, plus the OCR text for an image that was read, and nothing else is removed. Only an Aadhaar upload changes confirmations: an Aadhaar PDF or OCR-read image sets the Aadhaar confirmation to true and leaves every other confirmation as it was. An OCR-read image stores the number found in its text; a read that finds no number, and every other upload, leaves the Aadhaar number unchanged, and any new number has 12 digits. Other files and failed OCR leave the confirmations unchanged, and every other upload keeps its metadata |
| FarmerDocs.UploadAloneDoesNotConfirm | src/components/Farmer.jsx:481-532 | uploading a non-Aadhaar document leaves every scheme's document check unchanged |
| FarmerDocs.RequiredSet | src/components/Farmer.jsx:535-543 | the set form of the required documents has the same members |
| FarmerDocs.ChecklistDocs | src/components/Farmer.jsx:1159-1162 | the aggregate checklist uses only Aadhaar, bank and land, and includes Aadhaar when anything is eligible |
| FarmerDocs.ChecklistMembers | src/components/Farmer.jsx:1159-1162 | a document is on the checklist exactly when some eligible scheme requires it |
| FarmerDocs.ChecklistSuffices | src/components/Farmer.jsx:1159-1162 | confirming every checklist document clears every eligible scheme's document check |
| Aadhaar.MatchAt | src/components/Farmer.jsx:496 | a match spans 12 to 14 characters inside the text |
| Aadhaar.SeparatorHasNoDigits | src/components/Farmer.jsx:496-497 | an optional separator contributes no digit |
| Aadhaar.MatchHasTwelveDigits | src/components/Farmer.jsx:496-497 | every match holds exactly twelve digits |
| Aadhaar.FirstMatchFrom | src/components/Farmer.jsx:496 | the search returns the leftmost matching position, and none exactly when nothing matches |
| Aadhaar.Extract | src/components/Farmer.jsx:496-497 | a number is found exactly when some position matches. The number is the 12 digits of the leftmost match |
| Aadhaar.SeparatedExample | src/components/Farmer.jsx:495-496 | mixed dash and dot separators are accepted |
| Aadhaar.ContiguousExample | src/components/Farmer.jsx:495-496 | twelve contiguous digits are returned as they are |
| Aadhaar.TooLongExample | src/components/Farmer.jsx:496 | thirteen digits in a row hold no match |
| StepTracker.Flip | src/components/Farmer.jsx:1328 | one flag is negated; an index past the end grows the group with unchecked gaps |
| StepTracker.ToggleItem | src/components/Farmer.jsx:1324-1331 | exactly one checkbox changes, other schemes are untouched, and other groups of the scheme are kept |
| StepTracker.ToggleTwice | src/components/Farmer.jsx:1324-1331 | toggling a checkbox twice restores every checkbox |
| StepTracker.CountTrue | src/components/Farmer.jsx:1339 | the count of checked items never exceeds the group's length |
| StepTracker.CountFalses | src/components/Farmer.jsx:1337-1338 | a fresh all-false group counts nothing |
| StepTracker.CountFlip | src/components/Farmer.jsx:1328 | flipping a flag moves the count by one |
| StepTracker.Percent | src/components/Farmer.jsx:1341 | the percentage is 0 with no items and otherwise the nearest whole percentage, halves up. It is at most 100 when done <= total, exactly 100 when all are done, and 0 when none are |
| StepTracker.Progress | src/components/Farmer.jsx:1334-1341 | the percentage shown is at most 100 on well-formed ticks and 0 when nothing is stored for the scheme |
| StepTracker.DoneBounds | src/components/Farmer.jsx:1334-1339 | the done count is at most the item count on well-formed ticks and 0 when nothing is stored |
| StepTracker.DoneAtMostItems | src/components/Farmer.jsx:1334-1339 | on well-formed ticks the done count never exceeds the item count |
| StepTracker.ProgressAtMost100 | src/components/Farmer.jsx:1334-1341 | on well-formed ticks the percentage never exceeds 100 |
| StepTracker.NothingStoredNothingDone | src/components/Farmer.jsx:1334-1339 | with nothing stored no item counts as done |
| StepTracker.UntouchedIsZero | src/components/Farmer.jsx:1321-1341 | a scheme with no entry, or the empty entry "Open Steps" creates, shows 0% |
| StepTracker.DoneInShift | src/components/Farmer.jsx:1334-1339 | a change in one group shifts the done count by that group's change |
| StepTracker.ToggleCountsOne | src/components/Farmer.jsx:1324-1339 | ticking a rendered checkbox keeps the ticks well formed and moves the done count up by one, or down by one when it was checked |
| StepTracker.OtherSchemesUnaffected | src/components/Farmer.jsx:1324-1331 | toggling one scheme's checkbox leaves every other scheme's percentage unchanged |

## Left out

- Persistence and side effects are not modelled. This covers:
  - IndexedDB profile saving and loading;
  - localStorage share tokens;
  - the axios request that sends a new account to the server, which
    `subtn` makes after navigating away;
  - jsPDF and ZIP export, QR codes, notifications, speech and geolocation.

  None of these change the decisions modelled here.
- React rendering and state timing are not modelled. This covers:
  - `setState` batching;
  - the 500 ms delay before a chat answer appears, which is modelled as an
    immediate append;
  - effects. One of them matters for reading `Farmer.CheckAndSave`: the
    effect at Farmer.jsx:446-451 also runs `runEligibility` whenever the
    profile changes and has an income, land or age. It has no name or
    Aadhaar gate, so that gate holds for the "check and save" button only,
    not for the whole page;
  - `setForm(false)` hiding a form after the first evaluation. Because the
    form is hidden, the card flags, which are only ever set to true, are
    evaluated once.
- The form modules do not model `Number(text)` on malformed input or its
  NaN results. Each numeric `Entry` carries the value directly.
- Woman.Benefits: the rules compare the income text with a number. JavaScript
  converts it with `Number`, the same value an `Entry` holds.
- Text.Lower: lower-cases ASCII letters only. `toLowerCase` is
  Unicode-wide. The lookup decision is still the same for the five preset
  questions, for two reasons:
  - The questions are ASCII, so a typed non-ASCII letter can only match
    through a lower-case form that is ASCII.
  - The one such letter is U+212A KELVIN SIGN, which lower-cases to 'k',
    and no preset question contains a 'k'.
- Success alerts carry no trace in the model. These are "Form submitted
  successfully!" (Merit.jsx:35, Ews.jsx:31), "account created successfully"
  (Createacc.jsx:43) and the OCR result alerts of the upload handler.
  `Merit.Submit`, `Ews.Submit`, `Account.Submit` and
  `FarmerDocs.UploadDocument` model only the state that follows them; an
  alert is a message box that changes no data.
- Strings are sequences of characters, not UTF-16 code units. The password
  length test counts characters.
- StepTracker.Percent: `Math.round` is modelled on exact rationals. In
  binary floating point, `done / total * 100` can fall just below a
  half-way point and round down, for example 23/40.
- FarmerDocs.RequiredDocs: category names that are also keys of
  `Object.prototype` are not modelled. Any category outside the four table
  keys maps to Aadhaar and land proof.
- `hasUploadedDoc` is not modelled. It decides two things in the checklist.
  It picks the "Uploaded" label for an unconfirmed document. It also hides
  that document's file input once an upload whose type or name contains the
  document's key exists (Farmer.jsx:1177). It never decides validation,
  which uses confirmations alone, so the model gives no promise about
  which inputs the checklist offers.
- StepTracker.UntouchedIsZero: the "Open Steps" button (Farmer.jsx:1261)
  stores an all-false array under the scheme's id. `Ticks` cannot hold
  that, so it is modelled as an empty entry (`map[]`). Every group index
  then reads as not stored, both when counting and when toggling, which is
  how the source treats those `false` entries.
- FarmerDocs.UploadDocument: the call with no file, which returns at once,
  is not modelled.
- FarmerDocs.UploadDocument: an OCR failure is modelled as recording the
  metadata only. In the source the metadata still lands in the profile,
  because the copied profile shares its `docs` object.
- FarmerDocs.UploadDocument: the storage key is a parameter rather than
  `aadhaar_` followed by the clock.
- The Farmer page's other handlers are not modelled: the profile form
  bindings, profile creation, loading and deletion, the simulated
  application, and the share, reminder, office-finder and export flows.
  Their branches depend on storage and browser facilities (a stored token,
  notification permission, geolocation), which the model does not hold.
  `handleCheckAndSave`'s name and Aadhaar gate is modelled by
  `Farmer.CheckAndSave`; its save to storage and its closing alert are not.
- Merit.Benefits: the Post-Matric card text describes an income limit of
  2.5 lakh, but the rule compares with 2500000 (25 lakh). The model follows
  the rule.
