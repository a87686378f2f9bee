# CalculIMC form, modelled in Dafny

CalculIMC is a one-screen Android app written with Jetpack Compose. The user
types a last name ("Nom") and a first name ("Prénom"). They pick a birth date,
from which the app derives an age. They set a weight with "-" and "+" buttons
starting at 70 kg, and type a height in centimetres. "Calculer IMC" then
computes the body-mass ratio poids / (taille/100)², stores it with a category
word and switches to a result page. That page shows the ratio's band label
and an interpretation line. "Nouveau calcul" returns to the form with
every field kept.

This project models that form controller:

- the name rule shared by both name fields;
- the date picker callback and `calculerAge`, with `java.time.LocalDate`'s
  validity, `isAfter`, the `%02d/%02d/%04d` text, the strict `dd/MM/yyyy`
  parse and `ChronoUnit.YEARS.between`;
- the weight buttons, including the `Int` overflow of `poids++`;
- the digits-only height field and its error ladder;
- the submit gate, the ratio, the stored category table, and the band
  and interpretation tables of the result page.

Files and modules:

- `text.dfy` (`KotlinText`): the Kotlin text primitives the form uses.
  These are `isDigit`, `isWhitespace`, `isBlank`, `filter`, `toIntOrNull`,
  `toString` and zero padding.
- `dates.dfy` (`Dates`): dates, the date text, its parse, the year count
  and `calculerAge`.
- `validation.dfy` (`Validation`): the name and height error rules.
- `bmi.dfy` (`BodyMass`): the ratio and its three tables.
- `weight.dfy` (`Weight`): the weight buttons, as written and corrected.
- `form.dfy`: `FormRules` models each UI event as a function from one
  `FormState` (the screen's state variables) to the next, and proves the
  consistency every event keeps. `Form` models the screen as the class
  `CalculImcForm`. Its fields are the state variables, its methods are the
  events, and each method is proved to move `State()` exactly as the
  matching `FormRules` function does.

The current date (`LocalDate.now()`) is always a parameter named `today`.
The ratio is computed in exact rational arithmetic.

## Model

| member | source | states |
|---|---|---|
| KotlinText.FilterDigits | app/src/main/java/com/example/calculimc/MainActivity.kt:408 | the filtered height text holds digits only and is never longer than what was typed |
| KotlinText.FilterDigitsKeepsDigits | app/src/main/java/com/example/calculimc/MainActivity.kt:408 | a text of digits passes the filter unchanged |
| KotlinText.FilterDigitsIdempotent | app/src/main/java/com/example/calculimc/MainActivity.kt:408-409 | filtering the stored height text again changes nothing |
| KotlinText.FilterDigitsDropsNonDigits | app/src/main/java/com/example/calculimc/MainActivity.kt:408 | a text without digits filters to the empty text |
| KotlinText.FilterDigitsAppend | app/src/main/java/com/example/calculimc/MainActivity.kt:408 | the filter keeps every digit in order: filtering a concatenation concatenates the filtered parts |
| KotlinText.DigitsBlankOnlyWhenEmpty | app/src/main/java/com/example/calculimc/MainActivity.kt:410 | a filtered height text is blank exactly when it is empty |
| KotlinText.DigitsValueBound | app/src/main/java/com/example/calculimc/MainActivity.kt:410 | k digits read as a value below 10^k |
| KotlinText.DigitsValueAppend | app/src/main/java/com/example/calculimc/MainActivity.kt:410 | the value of a concatenation of digit strings is the first value shifted left by the second's length, plus the second value |
| KotlinText.ToIntOrNull | app/src/main/java/com/example/calculimc/MainActivity.kt:479 | `toIntOrNull` only ever yields a value within the `Int` range |
| KotlinText.ToIntOrNullOfDigits | app/src/main/java/com/example/calculimc/MainActivity.kt:410 | on a digit string, `toIntOrNull` fails exactly for the empty string and for a value past `Int.MAX_VALUE`, and otherwise yields the decimal value |
| KotlinText.NatToString | app/src/main/java/com/example/calculimc/MainActivity.kt:113 | the decimal text of a number is a non-empty digit string |
| KotlinText.NatToStringValue | app/src/main/java/com/example/calculimc/MainActivity.kt:113 | reading the decimal text back gives the number |
| KotlinText.NatToStringLength | app/src/main/java/com/example/calculimc/MainActivity.kt:113 | a number below 10^k prints with at most k digits, and one at or above 10^k prints with more |
| KotlinText.IntToStringRoundTrip | app/src/main/java/com/example/calculimc/MainActivity.kt:522 | `toString` and `toIntOrNull` are inverse on the `Int` range, negative numbers included |
| KotlinText.PadZeros | app/src/main/java/com/example/calculimc/MainActivity.kt:113 | `%0Nd` padding gives exactly N characters when the text was shorter, and otherwise keeps its length |
| KotlinText.PadZerosValue | app/src/main/java/com/example/calculimc/MainActivity.kt:113 | zero padding keeps a digit string's value |
| Dates.DaysInMonth | app/src/main/java/com/example/calculimc/MainActivity.kt:109 | months have 28 to 31 days, and 29 days exactly for February of a leap year |
| Dates.FormattedDateNotBlank | app/src/main/java/com/example/calculimc/MainActivity.kt:113 | the stored date text is never blank |
| Dates.ParseDate | app/src/main/java/com/example/calculimc/MainActivity.kt:519-520 | whatever the pattern accepts is a valid date of years 1..9999 |
| Dates.PaddedField | app/src/main/java/com/example/calculimc/MainActivity.kt:113 | a field below 10^w, zero-padded to w places, is w digits that read back as the field |
| Dates.FormatDateLayout | app/src/main/java/com/example/calculimc/MainActivity.kt:113 | for years 1..9999 the stored text is two day digits, '/', two month digits, '/', four year digits |
| Dates.ParseFormatRoundTrip | app/src/main/java/com/example/calculimc/MainActivity.kt:113-114 | for years 1..9999, parsing the stored text gives back the picked date |
| Dates.FormatPastYear9999Unparseable | app/src/main/java/com/example/calculimc/MainActivity.kt:113-114 | past year 9999 the stored text no longer matches `dd/MM/yyyy` |
| Dates.YearsBetweenIsAge | app/src/main/java/com/example/calculimc/MainActivity.kt:522 | for a birth date not after today, Java's year count is the age in whole years: the difference of the years, less one before the birthday |
| Dates.CalculerAgeEmptyIffUnparseable | app/src/main/java/com/example/calculimc/MainActivity.kt:517-526 | `calculerAge` returns "" exactly when the text does not parse |
| Dates.AgeOfFormattedDate | app/src/main/java/com/example/calculimc/MainActivity.kt:113-114 | the age stored with a picked date of years 1..9999 is the decimal whole-year age |
| Dates.LeapDayBirthday | app/src/main/java/com/example/calculimc/MainActivity.kt:522 | someone born on 29 February 2000 is 0 on 28 February 2001 and 1 on 1 March 2001 |
| Dates.ParseExample | app/src/main/java/com/example/calculimc/MainActivity.kt:519-520 | "15/06/1990" parses as 15 June 1990 |
| Dates.AgeAroundBirthday | app/src/main/java/com/example/calculimc/MainActivity.kt:517-526 | "15/06/1990" gives age "33" on 14 June 2024 and "34" on 15 June 2024, and a text that does not parse gives "" |
| Validation.NameErrorCases | app/src/main/java/com/example/calculimc/MainActivity.kt:288-292 | the length rule wins over the digit rule, and the error is empty exactly for a name of 3 or more characters without digits |
| Validation.BlankNamePassesEditCheck | app/src/main/java/com/example/calculimc/MainActivity.kt:288-292 | three spaces pass the edit rule although they are blank |
| Validation.HeightErrorCases | app/src/main/java/com/example/calculimc/MainActivity.kt:408-416 | on the kept digits, the error is empty exactly for 50..250. It is "invalid" for no digits, for 0 and past `Int.MAX_VALUE`, "too large" for 251..`Int.MAX_VALUE` and "too small" for 1..49 |
| Validation.HeightIgnoresNonDigits | app/src/main/java/com/example/calculimc/MainActivity.kt:408-416 | "1a7b0" is kept as "170" and accepted |
| BodyMass.Bmi | app/src/main/java/com/example/calculimc/MainActivity.kt:485-486 | the ratio is non-negative for a non-negative weight and negative for a negative one |
| BodyMass.DisplayBandIntervals | app/src/main/java/com/example/calculimc/MainActivity.kt:185-190 | each displayed band is its half-open interval: below 18.5, 18.5..25, 25..30, from 30 |
| BodyMass.DisplayBandMonotone | app/src/main/java/com/example/calculimc/MainActivity.kt:185-190 | a larger ratio never shows a lighter band |
| BodyMass.ResultPageText | app/src/main/java/com/example/calculimc/MainActivity.kt:185-207 | the result page shows "Maigreur" exactly below 18.5, "Poids normal" exactly on 18.5..25, "Surpoids" exactly on 25..30 and "Obésité" from 30, each with its own interpretation line; the four labels are pairwise distinct, and so are the four interpretations |
| BodyMass.StoredCategoryVersusDisplay | app/src/main/java/com/example/calculimc/MainActivity.kt:488-493 | the stored category names the displayed band except on (24.9, 25) and (29.9, 30), where it says "Obésité" |
| BodyMass.BmiAsFraction | app/src/main/java/com/example/calculimc/MainActivity.kt:485-486 | the ratio is 10000·poids / taille² |
| BodyMass.BmiThresholds | app/src/main/java/com/example/calculimc/MainActivity.kt:185-190 | the band thresholds 18.5, 25 and 30 as integer cross-multiplications of weight and height |
| BodyMass.BmiExamples | app/src/main/java/com/example/calculimc/MainActivity.kt:185-190 | 70 kg at 175 cm is normal (ratio 22.85..22.86), 50 kg is underweight and 120 kg is obese |
| Weight.ButtonSteps | app/src/main/java/com/example/calculimc/MainActivity.kt:382-392 | "-" stops at 0 and otherwise takes one off, and "+" adds one below `Int.MAX_VALUE` |
| Weight.WeightStaysInRange | app/src/main/java/com/example/calculimc/MainActivity.kt:382-392 | with the corrected "+", no series of presses takes the weight out of 0..`Int.MAX_VALUE` |
| Weight.IncrementAsWritten | app/src/main/java/com/example/calculimc/MainActivity.kt:392 | `poids++` on an `Int` stays within the `Int` range by wrapping |
| Weight.PlusesAsWritten | app/src/main/java/com/example/calculimc/MainActivity.kt:392 | as written, n presses of "+" add n while the sum fits an `Int` |
| Weight.AsWrittenWeightGoesNegative | app/src/main/java/com/example/calculimc/MainActivity.kt:392 | as written, 2147483578 presses of "+" from 70 kg leave the weight at -2147483648 |
| FormRules.InitialConsistent | app/src/main/java/com/example/calculimc/MainActivity.kt:82-99 | the initial state is consistent |
| FormRules.EditNomKeepsConsistent | app/src/main/java/com/example/calculimc/MainActivity.kt:286-292 | a "Nom" edit keeps the form consistent |
| FormRules.EditPrenomKeepsConsistent | app/src/main/java/com/example/calculimc/MainActivity.kt:312-318 | a "Prénom" edit keeps the form consistent |
| FormRules.PickDateKeepsConsistent | app/src/main/java/com/example/calculimc/MainActivity.kt:108-116 | a picked date keeps the form consistent |
| FormRules.ButtonsKeepConsistent | app/src/main/java/com/example/calculimc/MainActivity.kt:382-392 | both weight buttons keep the form consistent |
| FormRules.EditTailleKeepsConsistent | app/src/main/java/com/example/calculimc/MainActivity.kt:406-416 | a height edit keeps the form consistent |
| FormRules.CalculerKeepsConsistent | app/src/main/java/com/example/calculimc/MainActivity.kt:478-500 | "Calculer IMC" keeps the form consistent: a result page only shows the ratio and category of a submittable form |
| FormRules.NouveauCalculKeepsConsistent | app/src/main/java/com/example/calculimc/MainActivity.kt:221 | "Nouveau calcul" keeps the form consistent |
| FormRules.CalculerOutcome | app/src/main/java/com/example/calculimc/MainActivity.kt:479-499 | the result page opens exactly for a submittable form; then both names pass the edit rule, a date is set and the height is in 50..250. Otherwise at least one error shows |
| FormRules.RefusedCalculerIdempotent | app/src/main/java/com/example/calculimc/MainActivity.kt:479-499 | a refused "Calculer IMC" stays refused, and pressing it again changes nothing |
| FormRules.RecalculateSameResult | app/src/main/java/com/example/calculimc/MainActivity.kt:221 | "Nouveau calcul" then "Calculer IMC" with no edit shows the same result again |
| FormRules.BlankNameRefusedAtSubmit | app/src/main/java/com/example/calculimc/MainActivity.kt:288-292 | a name of three spaces passes the edit rule, yet "Calculer IMC" refuses it with "Nom obligatoire" |
| FormRules.EditTailleIgnoresNonDigits | app/src/main/java/com/example/calculimc/MainActivity.kt:406-416 | typing a text or only its digits leaves the same state; the height error is empty exactly for an accepted height |
| FormRules.PickDateOutcome | app/src/main/java/com/example/calculimc/MainActivity.kt:108-116 | a future date only sets the date error, leaving every other field as it was, and blocks the submit. Any other date of years 1..9999 is stored as a text that parses back to it, with its whole-year age; past year 9999 the age is empty |
| Form.CalculImcForm.constructor | app/src/main/java/com/example/calculimc/MainActivity.kt:82-99 | the initial values of the state variables, consistent |
| Form.CalculImcForm.EditNom | app/src/main/java/com/example/calculimc/MainActivity.kt:286-292 | the name is stored as typed with its name error, nothing else changes, and consistency is kept |
| Form.CalculImcForm.EditPrenom | app/src/main/java/com/example/calculimc/MainActivity.kt:312-318 | the same for the first name |
| Form.CalculImcForm.PickDate | app/src/main/java/com/example/calculimc/MainActivity.kt:106-116 | the callback moves the state exactly as `FormRules.OnPickDate`, and consistency is kept |
| Form.CalculImcForm.DecrementPoids | app/src/main/java/com/example/calculimc/MainActivity.kt:382 | only the weight changes, by `Decrement`, and consistency is kept |
| Form.CalculImcForm.IncrementPoids | app/src/main/java/com/example/calculimc/MainActivity.kt:392 | only the weight changes, by the corrected `Increment`, and consistency is kept |
| Form.CalculImcForm.EditTaille | app/src/main/java/com/example/calculimc/MainActivity.kt:406-416 | the height text becomes its digits with their height error, and consistency is kept |
| Form.CalculImcForm.Calculer | app/src/main/java/com/example/calculimc/MainActivity.kt:478-500 | the state moves exactly as `FormRules.OnCalculer`, and consistency is kept |
| Form.CalculImcForm.NouveauCalcul | app/src/main/java/com/example/calculimc/MainActivity.kt:221 | only `showResult` goes back to false, and consistency is kept |

## Left out

- The Compose layout, colours, the theme switch, the "Sexe" and "Type
  d'activité" fields and the dropdown state: none of them feeds the ratio or
  the checks.
- `Float` arithmetic: the ratio is exact, so float rounding near a
  threshold is not modelled. The `%.1f` display of the ratio is left out
  for the same reason.
- `Char.isDigit` and `toIntOrNull` also accept non-ASCII decimal digits
  (Arabic-Indic and others). The model takes ASCII digits only.
- Strings are sequences of UTF-16 code units. Surrogate pairs and
  locale-specific digits in `String.format` are not modelled.
- A `+` sign before a year of more than four digits, accepted by
  `DateTimeFormatter` in some modes, is not modelled. The stored text never
  has one.
- The picker widget itself: `Form.CalculImcForm.PickDate` takes the year,
  0-based month and day the widget passes and requires them to form an
  existing date of year 1 or later. Its initial position from `Calendar` is
  left out.
- `LocalDate.now()` is read twice, once in the callback and once in
  `calculerAge`. The model passes the same `today` to both, so a pick at
  midnight is not modelled.
- Form.CalculImcForm.Valid: the class invariant does not restate that the
  date text is the formatted last pick with its `calculerAge` age. That
  link follows from `PickDate`'s postcondition together with
  `FormRules.PickDateOutcome` and `Dates.ParseFormatRoundTrip`, and no other
  method changes those two fields.
- The event handlers exist only while their page is shown. The form
  methods require `!showResult` and `NouveauCalcul` requires `showResult`.

## Findings

| source | as written | input that shows it | evidently intended | confidence | as-written member | corrected member |
|---|---|---|---|---|---|---|
| app/src/main/java/com/example/calculimc/MainActivity.kt:392 | `poids++` on an `Int` with no upper bound, so `Int.MAX_VALUE` wraps to `Int.MIN_VALUE` | 2147483578 presses of "+" from the initial 70 kg | the weight never becomes negative, as the "-" button's `poids > 0` guard intends | not executed | Weight.AsWrittenWeightGoesNegative | Weight.WeightStaysInRange |
