# GPA / CGPA calculator — a Dafny model of the calculation core

The calculator turns a list of course grades and credits into a Grade Point
Average (GPA), and a list of semester GPAs and credits into a Cumulative GPA
(CGPA). Its core is three things, all in `app.py`:

- **Grade lookup** (`GradePointMap.get_point`): a fixed ten-entry table from
  letter grade to grade point. Matching ignores case, and an unknown token
  silently scores 0.0.
- **Weighted average** (`GPACalculator.calculate`, `CGPACalculator.calculate`):
  `sum(value * credit) / sum(credit)`, or 0 when the credits add up to zero.
  The GPA calculator takes the values from the grade lookup and the CGPA
  calculator takes the semester GPAs. The model defines one weighted average
  (`Averages.WeightedAverage`) and feeds both calculators into it.
- **Validator** (`positive_int`, `positive_float`, `gpa`): range checks that
  return the number or fail with a message built from the field label.

Modules, one file each:

| module | file | models |
|---|---|---|
| `Wrappers` | wrappers.dfy | `Result`: a value, or the error that would have been raised |
| `Text` | text.dfy | Python's `str.strip()` and `str.upper()` as the grade token uses them |
| `GradeScale` | grade_scale.dfy | `GradePointMap` |
| `Averages` | averages.dfy | the weighted average both calculators share |
| `Records` | records.dfy | `Subject`, `Student`, `Semester` |
| `Calculators` | calculators.dfy | `GPACalculator`, `CGPACalculator` |
| `Floats` | floats.dfy | what `float(...)` can produce: a number, NaN or an infinity, with IEEE comparisons |
| `Validation` | validation.dfy | `Validator` |
| `Soundness` | soundness.dfy | what validated input guarantees the calculators |

All arithmetic is exact (`real`). Each calculator appears twice. As a
function (`Calculators.Gpa`, `Calculators.Cgpa`) it is the weighted average
of the mapped entries. As a method (`CalculateGpa`, `CalculateCgpa`) it is
the source's accumulating loop, and that method is proved to return the
function's value.

The validators do not parse text. Each one receives what Python's `int(...)`
or `float(...)` produced: the number, or the parser's own error message,
which the validator passes on unchanged, as the raised exception does in
the source.

For the CGPA example `[(3.5, 15), (3.8, 12)]` the code computes
(3.5·15 + 3.8·12) / 27 = 98.1 / 27 = 109/30 ≈ 3.633.
`Averages.AverageExamples` and `Calculators.CgpaExamples` state the exact
value 109/30.

## Model

| member | source | states |
|---|---|---|
| `GradeScale.GradePoint` | app.py:36-38 | every grade token, known or not, gets a point in [0.0, 4.0]; no token raises |
| `GradeScale.TableIsScale` | app.py:29-34 | the table holds exactly the ten scale grades (A, B or C with optional + or -, and F), each with its scale value: letter base 4/3/2, +0.3 capped at 4.0, -0.3, F = 0 |
| `GradeScale.GradePointFollowsScale` | app.py:29-38 | a token whose upper-case form is a scale grade gets that grade's point; every other token (empty, "D", "A+ " with a space) gets 0.0 |
| `GradeScale.GradePointIgnoresCase` | app.py:38 | two tokens that differ only in letter case get the same point |
| `GradeScale.TableGradeExamples` | app.py:29-38 | each of the ten table keys, as written, gets its table value (A+ and A 4.0, A- 3.7, B+ 3.3, B 3.0, B- 2.7, C+ 2.3, C 2.0, C- 1.7, F 0.0) |
| `GradeScale.LowerCaseGradeExamples` | app.py:38 | lower-case tokens get the point of their upper-case key: "a+" and "a" 4.0, "a-" 3.7, "b" 3.0, "c" 2.0, "f" 0.0 |
| `GradeScale.UnknownGradeExamples` | app.py:38 | tokens that are not keys get the default 0.0: "", "D", "Z", "A+ " with a trailing space, and "F+" |
| `Text.Strip` | app.py:12 | the stripped token has no whitespace at either end and is the input minus a whitespace-only prefix and suffix |
| `Text.StrippedIsFixed` | app.py:12 | a token with no whitespace at either end is returned unchanged by `strip` |
| `Text.StripIdempotent` | app.py:12 | stripping an already stripped token changes nothing: `strip` is idempotent |
| `Text.StripIgnoresSurroundingSpace` | app.py:12 | adding whitespace around a token does not change what `strip` returns |
| `Text.Upper` | app.py:38 | upper-casing keeps the length and maps each character on its own, at the same position |
| `Text.UpperEqualIffSameIgnoringCase` | app.py:38 | two tokens have the same upper-case form if and only if they agree character by character ignoring case |
| `Records.NewSubject` | app.py:10-13 | a subject keeps its credit and stores the grade with surrounding whitespace removed |
| `Records.SubjectIgnoresSurroundingSpace` | app.py:12 | whitespace around the grade token changes neither the subject nor its grade point |
| `Averages.TotalWeightPositive` | app.py:48-51 | with positive credits the `total_credits` accumulator is never negative, and it is positive exactly when the loop visited at least one entry |
| `Averages.TotalPointsWithin` | app.py:47-51 | with positive credits and every value in [lo, hi], the `total_points` accumulator lies between lo and hi times the `total_credits` accumulator |
| `Averages.WeightedAverage` | app.py:52 | when the credits add up to a nonzero total, the result times that total is the total points; when they add up to zero, the result is 0 instead of a division |
| `Averages.TotalsOfConcat` | app.py:49-51 | the two accumulators of a concatenated list are the sums of the parts' accumulators |
| `Averages.AverageWithin` | app.py:47-52 | with positive credits and at least one entry, the average lies within any bounds of the values |
| `Averages.AverageBetweenMinAndMax` | app.py:47-52 | with positive credits, the average lies between the smallest and the largest value |
| `Averages.AverageOfConstant` | app.py:47-52 | entries that share one value average to that value, whatever the credits, unless the credits cancel out |
| `Averages.AverageExamples` | app.py:47-52 | (4.0, 3) and (3.0, 3) average to 3.5; (3.5, 15) and (3.8, 12) average to 109/30; no entries give 0 |
| `Calculators.Gpa` | app.py:45-52 | zero total credits, and in particular no subjects, give 0; with positive credits and at least one subject the GPA is in [0, 4] |
| `Calculators.Cgpa` | app.py:54-61 | zero total credits, and in particular no semesters, give 0; semesters with GPAs in [0, 4] and positive credits give a CGPA in [0, 4] |
| `Calculators.CalculateGpa` | app.py:46-52 | the accumulating loop over the subjects returns the weighted average of (grade point, credit) |
| `Calculators.CalculateCgpa` | app.py:55-61 | the accumulating loop over the semesters returns the weighted average of (GPA, credits) |
| `Calculators.GpaIsCgpaOfGradePoints` | app.py:45-61 | the two calculators compute the same thing: a student's GPA is the CGPA of its subjects read as semesters (grade point as GPA, credit as credits) |
| `Calculators.CgpaOfTermsIsOverallGpa` | app.py:45-61 | with positive credits, the CGPA over terms summarised by their unrounded GPA and total credits is the GPA over all the terms' subjects |
| `Calculators.GpaExamples` | app.py:45-52 | "A" and "B" (either case) at 3 credits each give a GPA of 3.5; no subjects give 0 |
| `Calculators.CgpaExamples` | app.py:54-61 | semesters (3.5, 15) and (3.8, 12) give 109/30; no semesters give 0 |
| `Floats.ComparisonFacts` | app.py:75 | on numbers `<`, `<=` and `>` are the real order; every comparison with NaN is false, so `v <= 0` and `v > 0` can both fail |
| `Validation.NotPositive` | app.py:70 | the positivity message starts with the field label, which is followed by exactly " must be positive" |
| `Validation.OutOfRange` | app.py:82 | the range message starts with the field label, which is followed by exactly " must be between 0 and 4" |
| `Validation.PositiveInt` | app.py:67-71 | a parse failure passes through; a parsed integer is accepted unchanged if and only if it is positive, otherwise the error is "<name> must be positive" |
| `Validation.PositiveFloatAsWritten` | app.py:73-77 | as written: a parsed float is accepted unchanged if and only if `v <= 0` is false, otherwise "<name> must be positive" |
| `Validation.PositiveFloat` | app.py:73-77 | a parse failure passes through; a parsed value is accepted if and only if it is a positive number, which is returned unchanged; otherwise "<name> must be positive" |
| `Validation.GpaAsWritten` | app.py:79-83 | as written: a parsed float is accepted unchanged if and only if both `v < 0` and `v > 4` are false, otherwise "<name> must be between 0 and 4" |
| `Validation.GpaRange` | app.py:79-83 | a parse failure passes through; a parsed value is accepted if and only if it is a number in the closed interval [0, 4], returned unchanged; otherwise "<name> must be between 0 and 4" |
| `Validation.PositiveFloatAsWrittenDiffersOnlyOnNaNAndInfinity` | app.py:73-77 | the written `positive_float` agrees with the intended check on every input except NaN and positive infinity |
| `Validation.GpaAsWrittenDiffersOnlyOnNaN` | app.py:79-83 | the written `gpa` agrees with the intended check on every input except NaN |
| `Validation.AsWrittenAcceptsNaN` | app.py:73-83 | as written, NaN passes `positive_float` and `gpa` and positive infinity passes `positive_float`; the intended checks reject them with their usual messages |
| `Validation.RecheckAccepts` | app.py:67-83 | a value that passed a check passes the same check again, under any label, unchanged |
| `Validation.MessagesIdentifyFieldAndCheck` | app.py:70-82 | a message determines its field label, and a positivity message never equals a range message |
| `Validation.PositiveIntExamples` | app.py:67-71 | -1 and 0 are rejected with "X must be positive" and "Subjects must be positive"; 1 is accepted |
| `Validation.PositiveFloatExamples` | app.py:73-77 | 0 is rejected with "Credit 1 must be positive", 0.5 is accepted, and a parse failure's message passes through |
| `Validation.GpaRangeExamples` | app.py:79-83 | 0 and 4 are accepted; 4.5 and -0.1 are rejected with "Y must be between 0 and 4" |
| `Soundness.GpaOfValidatedInput` | app.py:107-114 | when the subject count passed `positive_int` and every credit passed the corrected positivity check `Validation.PositiveFloat`, the total credits are positive and the GPA is in [0, 4] |
| `Soundness.GpaOfAsWrittenValidatedInput` | app.py:107-114 | when the subject count passed `positive_int` and every credit passed `positive_float` as written (`Validation.PositiveFloatAsWritten`) and parsed to a number, the total credits are positive and the GPA is in [0, 4] |
| `Soundness.CgpaOfValidatedInput` | app.py:118-124 | when the semester count passed `positive_int` and every semester's GPA and credits passed the corrected checks `Validation.GpaRange` and `Validation.PositiveFloat`, the total credits are positive and the CGPA is in [0, 4] |
| `Soundness.CgpaOfAsWrittenValidatedInput` | app.py:118-124 | when the semester count passed `positive_int` and every semester's GPA and credits passed `gpa` and `positive_float` as written (`Validation.GpaAsWritten`, `Validation.PositiveFloatAsWritten`) and parsed to numbers, the total credits are positive and the CGPA is in [0, 4] |

## Left out

- The Flask application, the `index` route, form access, template rendering and `app.run` (app.py:1-5, 92-140) are HTTP and template I/O. The `Soundness` lemmas state only what the route's sequence of checks guarantees the calculators.
- Parsing with `int(...)` and `float(...)` is left out because its accepted syntax belongs to Python's built-ins. The validators take the parser's outcome instead: a number, or the parser's error message.
- `round(..., 2)` on the result is left out. Every property is stated about the exact quotient.
- Floating-point arithmetic in the sums is not modelled: totals and quotients are exact reals. A finite Python float is modelled as an arbitrary real, and -0.0 is not distinguished from 0.0.
- Overflow of products and sums beyond the float range is not modelled. Finite validated input can still drive the result out of [0, 4]. One subject with grade "A" and credit 1e308 gives `4.0 * 1e308 = inf` and a GPA of `inf`. Two semesters `(4.0, 1e308)` make both accumulators `inf` and the CGPA NaN. The `Soundness` bounds hold in exact arithmetic only.
- The abstract `Calculator` base class (app.py:40-43) adds no behaviour.
- Turning a raised exception into the page's error text (app.py:126-127) is plumbing. The model keeps only the message each check produces.
- `Student.name` and its `strip()` (app.py:17) are display-only and never used in a calculation.
- `Text.Upper` upper-cases only the ASCII letters `a`-`z`. Python's `str.upper()` maps all of Unicode, but no non-ASCII character upper-cases to a table key, so the grade point of every token is unaffected.
- When the credits add up to zero the source returns the integer `0`, otherwise a float. Both are the real number 0 here.

## Findings

| source | as written | input that shows it | evidently intended | confidence | as-written member | corrected member |
|---|---|---|---|---|---|---|
| app.py:73-77 | `positive_float` rejects only values for which `v <= 0` holds, and that comparison is false for NaN; positive infinity also passes | the credit text "nan" or "inf", which `float` turns into NaN or infinity; the GPA then comes out as NaN | accept only finite positive numbers, rejecting the rest with "<name> must be positive" | medium; not executed | `Validation.PositiveFloatAsWritten` | `Validation.PositiveFloat` |
| app.py:79-83 | `gpa` rejects only values for which `v < 0 or v > 4` holds, and both comparisons are false for NaN | the semester GPA text "nan" is accepted as a GPA | accept exactly the numbers in [0, 4], rejecting NaN with "<name> must be between 0 and 4" | high; not executed | `Validation.GpaAsWritten` | `Validation.GpaRange` |

`Validation.AsWrittenAcceptsNaN` exhibits both inputs. The two `…Differs…`
lemmas prove that NaN, and for `positive_float` also positive infinity, are
the only inputs on which the written and the corrected checks disagree. The
`Soundness` lemmas prove the calculators' bounds, in exact arithmetic, for
every input that passed the corrected checks, and for the input that passed
the written checks only when every value parsed to a number.
