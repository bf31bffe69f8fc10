# Cognitive assessment battery — verified model

This project models the logic of a single-participant cognitive assessment
session: a demographics form, a five-minute numerical-ability test and a
42-trial Stroop colour–word test, run one stage after another and merged
into one participant record.

- `Builtins.dfy` — the Python built-ins the tests rely on: `str.strip()`,
  `int()` on an answer string, `str.lower()` on a button label and `int()`
  on a float (truncation toward zero).
- `MathTest.dfy` — the question generator (tier, pattern, operands drawn
  by the caller), an expression tree with Python's evaluation in place of
  `eval`, the per-tier counters, the scoring formula and the runner as a
  class (`MathRunner`): its constructor is the first entry, `Pass` is one
  pass of the test, and `ExtendIfExhausted`, `Skip`, `SubmitInt` and
  `Submit` are the steps of a pass.
- `Stroop.dfy` — the colour table, the trial generator, the results rows,
  the runner as a class (`StroopRunner`) with press, timeout and advance,
  and the end-of-test aggregation.
- `App.dfy` — the stage machine (`Session`): form validation, merging the
  two tests' result dicts into the participant record, the EndTime stamp
  and the reset. Record keys are an enumeration of the columns (`Column`,
  with `Header` giving each one's dict key).
- `Wrappers.dfy` — `Option`, for Python's `None`.

Randomness and clocks are inputs: a math question comes from a `Draw`
(tier, pattern, operands within the pattern's `randint` bounds), a Stroop
trial from a `Pick` (condition, word index, colour index), and each pass
of a runner takes the clock reading it would read. `MathRunner.Pass` and
`StroopRunner.Pass` are each one Streamlit pass of their test; the other
runner methods (`Skip`, `SubmitInt`, `Submit`, `ExtendIfExhausted`,
`Press`, `Timeout`, `RecordResponse`, `NextQuestion`) are the steps of a
pass, and the `Session` methods are the passes of each stage. The session
keys with the `math_` and `stroop_` prefixes are the runner object, and
deleting them is the caller dropping that object.

Points where the code's behaviour differs from a plain reading of its
constants, and the model follows the code:

- The math timer ends the test once `int(300 - elapsed) <= 0`, that is once
  more than 299 seconds have elapsed (`MathTest.TimeUpIff`).
- A Stroop trial times out once `max(0, int(5 - elapsed))` is 0, that is
  once more than 4 seconds have elapsed (`Stroop.CountdownZeroIff`). A
  press is handled before the timeout test, so a press on the same pass
  still wins.
- `int()` refuses a numeral of more than 4300 digits (CPython's default
  `int_max_str_digits`), so the round trip of a typed answer holds for
  numbers up to that length (`Builtins.ParseShow`, `Builtins.ParseTooLong`);
  every generated answer lies in [-190, 190] (`MathTest.AnswerBound`).
- An interference of exactly 0 is reported as None (the source tests the
  value's truthiness).
- `stroop_answered` is set and then cleared within the same pass by
  `next_question`, so between passes it is always False (part of
  `StroopRunner.Valid`).

## Model

| member | source | states |
|---|---|---|
| Builtins.Strip | math_test.py:172-174 | the stripped answer is a slice of the input with only whitespace (Python's `isspace` set) cut before and after it; it is empty exactly when every character is whitespace, and otherwise starts and ends with a non-whitespace character |
| Builtins.ParseInt | math_test.py:179 | `int()` on the stripped text succeeds only on non-empty text ending in a digit that is a run of digits with single underscores between digits, after one optional `+` or `-`; a negative value needs a leading `-` (ValueError, None, otherwise) |
| Builtins.ParseAccepts | math_test.py:179 | such a run of at most 4300 digits, signed or not, is read as the value of its digits (underscores ignored), negated after a `-` |
| Builtins.ParseTooLong | math_test.py:178-179 | a signed or unsigned digit run of more than 4300 digits is refused |
| Builtins.ParseShow | math_test.py:178-179 | `int()` reads the decimal numeral of any integer of at most 4300 digits, negative ones included, back as that integer |
| Builtins.PaddedNumeral | math_test.py:172 | stripping a numeral surrounded by whitespace yields the numeral itself |
| Builtins.Lower | stroop_test.py:135 | `str.lower()` keeps the length, maps every uppercase ASCII letter to its lowercase letter, keeps every other character, and leaves no uppercase ASCII letter |
| Builtins.Trunc | math_test.py:112 | `int()` on a float truncates toward zero: the largest integer not above x for x ≥ 0, the smallest not below x for x < 0 |
| Builtins.TruncAtMostZero | math_test.py:112 | `int(x)` on a float is at most 0 exactly when x < 1 |
| MathTest.ExactDivision | math_test.py:36-39 | in every division pattern the divisor is at least 2, divides `a = b * quotient` with no remainder, and the true quotient equals the drawn quotient |
| MathTest.EvalBuild | math_test.py:20-84 | every pattern's expression (`Build`, the tree Python parses from the f-string), evaluated with Python's operators (`Eval`), yields no ZeroDivisionError and the pattern's intended integer value |
| MathTest.GenerateOne | math_test.py:15-85 | the stored answer equals the value of the expression, equals the intended value, and the question carries the drawn tier (one of easy, moderate, hard) |
| MathTest.AnswerBound | math_test.py:20-84 | every generated answer lies in [-190, 190] |
| MathTest.EasySubtractionNonNegative | math_test.py:27-29 | an easy subtraction's answer lies in [0, 69], never negative |
| MathTest.GenerateQuestions | math_test.py:10-87 | exactly `num` questions, the i-th built from the i-th draw, each evaluating to its stored answer and tagged with its draw's tier |
| MathTest.Tally | math_test.py:187-197 | one integer answer adds 1 to its tier's attempted counter, 1 to its correct counter exactly when correct, and leaves the other tiers unchanged |
| MathTest.TallyPreserves | math_test.py:182-197 | per-tier attempted counters sum to `attempted`, correct counters to `correct`, and each tier's correct ≤ attempted, before and after every integer answer |
| MathTest.ConsistentBounds | math_test.py:99-109 | the counter invariant implies correct ≤ attempted |
| MathTest.WeightedAccuracy | math_test.py:125-139 | weighted accuracy is 0 with no weighted attempts and otherwise the ratio weighted correct / weighted attempted (weights 1, 2, 3); it lies in [0, 1] when no tier has more correct than attempted answers, and is 1 when every weighted attempt is correct |
| MathTest.AccuracyTimesAttempts | math_test.py:139 | with weighted attempts, accuracy × weighted attempted = weighted correct |
| MathTest.SpeedEfficiency | math_test.py:140 | speed efficiency lies in [0, 1], is 1 exactly when at least 100 were attempted, and is attempted/100 below that |
| MathTest.Score | math_test.py:139-154 | the result carries the counts, the weighted accuracy of the tier counters and the speed efficiency of the attempted count (in [0, 1]), a score equal to 0.7·accuracy + 0.3·speed, and accuracy and score in [0, 1] for consistent counters |
| MathTest.NoAttemptsMeansZeroAccuracy | math_test.py:133-141 | with consistent counters, no weighted attempts is the same as no attempts, and then every ratio of the result is 0 |
| MathTest.TimedOutWithoutAttempts | math_test.py:139-141 | a test that ends with no attempts has accuracy 0 and score 0.3 times the speed efficiency |
| MathTest.PerfectRun | math_test.py:127-141 | 100 attempts, all correct, give accuracy, speed efficiency and score of exactly 1 |
| MathTest.Remaining | math_test.py:111-112 | the seconds left are at most 300 for a non-negative elapsed time and not negative while at most 300 seconds have elapsed |
| MathTest.TimeUpIff | math_test.py:111-119 | the time-up branch is taken exactly when more than 299 seconds have elapsed |
| MathTest.TypedAnswerIsCorrect | math_test.py:172-185 | typing a generated question's stored answer as a numeral, with any surrounding whitespace, is read as an integer equal to the stored answer (answers are small enough for `int()`) |
| MathTest.MathRunner.constructor | math_test.py:96-109 | first entry records the start time, a pool of 100 generated questions, index 0 and every counter 0 |
| MathTest.MathRunner.ExtendIfExhausted | math_test.py:157-162 | when the index has reached the pool's end, 50 generated questions are appended and the prefix kept; afterwards the index is inside the pool |
| MathTest.MathRunner.Skip | math_test.py:174-176 | a blank answer advances the index by one and keeps the invariant |
| MathTest.MathRunner.SubmitInt | math_test.py:178-200 | an integer answer adds 1 to attempted and to its tier, adds 1 to correct and to its tier's correct exactly when it equals the stored answer, and advances the index; the invariant is kept |
| MathTest.MathRunner.Submit | math_test.py:170-203 | blank text skips, non-integer text changes nothing and warns, integer text is scored as above |
| MathTest.MathRunner.Pass | math_test.py:111-203 | at clock `now`, the result is produced exactly when `int(300 - (now - start))` is at most 0, is the score of the counters and changes nothing; otherwise, when the index has reached the pool's end, the 50 questions generated from the extension draws are appended in order (else the pool is unchanged), and a submission is handled: warned exactly when the stripped text is non-blank and not an integer |
| Stroop.ColorTable | stroop_test.py:10-17 | the button labels are exactly the table's keys, the value list lines up with them, and no neutral word is a colour name |
| Stroop.Others | stroop_test.py:34 | the filtered list holds exactly the colours of the list that differ from the excluded one |
| Stroop.OthersOfColor | stroop_test.py:34 | the incongruent colour list is the other three colours, in table order |
| Stroop.GenerateQuestion | stroop_test.py:21-37 | congruent: a colour word in its own colour; incongruent: a colour word in one of the other colours, never its own; neutral: a neutral (non-colour) word in one of the four colours |
| Stroop.GeneratorComplete | stroop_test.py:21-37 | every trial meeting its condition's constraints is produced by some choice, so the constraints are exact |
| Stroop.PressCorrectness | stroop_test.py:135 | `color_name.lower() == color` holds exactly when the table maps the pressed label to the trial's colour |
| Stroop.ResponseText | stroop_test.py:46 | the stored response is the pressed label when there is a non-empty one and "No Response" otherwise, never empty |
| Stroop.Countdown | stroop_test.py:112-113 | the countdown is never negative, at most 5 for a non-negative elapsed time, and when positive it is the whole number of seconds left |
| Stroop.CountdownZeroIff | stroop_test.py:112-113 | the countdown is 0, so an unanswered trial times out, exactly when more than 4 seconds have elapsed |
| Stroop.CountCorrect | stroop_test.py:86 | the correct count (`df["Correct"].sum()`) is at most the number of rows |
| Stroop.ErrorsAreIncorrect | stroop_test.py:85-86 | trials minus the correct count is the number of incorrect rows |
| Stroop.ErrorRate | stroop_test.py:85-87 | the error rate is the incorrect rows as a percentage of all rows: in [0, 100], and rate × trials = 100 × incorrect |
| Stroop.CorrectTimes | stroop_test.py:89-93 | the reaction times of the correct rows, nulls dropped, of one condition when asked: no more values than rows |
| Stroop.CorrectTimesEmpty | stroop_test.py:89-93 | that list is empty exactly when no row is correct, timed and of the condition asked for |
| Stroop.Mean | stroop_test.py:90-93 | the mean is absent (NaN) exactly when there are no values |
| Stroop.Interference | stroop_test.py:95-107 | interference is present exactly when both condition means exist and differ, and is then incongruent minus congruent |
| Stroop.Summary | stroop_test.py:83-109 | total trials is the row count; the error rate is the percentage of incorrect rows and lies in [0, 100]; the mean is the mean of the correct rows' times, absent exactly when no correct row has a time; interference is present exactly when both condition means exist and differ, and is incongruent minus congruent |
| Stroop.AllTimedOut | stroop_test.py:83-109 | 42 timed-out rows give error rate 100, no mean, no interference and 42 trials |
| Stroop.StroopRunner.constructor | stroop_test.py:69-78 | first entry: question 1, no rows, the clock started, a generated trial, the flag clear |
| Stroop.StroopRunner.RecordResponse | stroop_test.py:40-49 | exactly one row is appended at the end, earlier rows unchanged; its response is "No Response" when the answer is falsy |
| Stroop.StroopRunner.NextQuestion | stroop_test.py:52-60 | the index advances by one, the clock restarts, the flag clears and a new trial is generated |
| Stroop.StroopRunner.Press | stroop_test.py:128-150 | a press appends a row with the pressed label, correctness from the colour table and the elapsed time, then advances; row count stays index − 1 with rows numbered 1..k |
| Stroop.StroopRunner.Timeout | stroop_test.py:153-167 | a timeout appends an incorrect "No Response" row with no reaction time, then advances; the invariant is kept |
| Stroop.StroopRunner.Finish | stroop_test.py:81-109 | past the last trial the summary covers exactly 42 trials with an error rate in [0, 100] |
| Stroop.StroopRunner.Pass | stroop_test.py:80-169 | past the last trial it yields the summary and changes nothing; otherwise a press is recorded first (the pressed label, correctness from the colour table, the elapsed time), else a countdown at 0 records a timeout; either way the index advances, the clock restarts at the given reading and a new trial is drawn; with neither, nothing changes |
| App.Validate | app.py:70-76 | missing consent is reported whatever the name; with consent a whitespace-only name is reported; otherwise the form is accepted |
| App.HeaderInjective | app.py:77-91 | distinct columns have distinct dict keys, so a record keyed by columns stands for the string-keyed participant dict |
| App.FieldGroupsDisjoint | app.py:77-135 | demographic, math and Stroop columns are disjoint and none is EndTime, so no merge overwrites an earlier field |
| App.Demographics | app.py:77-91 | the stored record has exactly the twelve form fields and StartTime; each form column holds its form value as entered (the name unstripped) and StartTime the clock reading |
| App.MathFields | math_test.py:148-154 | the math result dict has exactly its five keys, holding the attempted and correct counts, the weighted accuracy, the speed efficiency and the score of the result |
| App.StroopFields | stroop_test.py:104-109 | the Stroop result dict has exactly its four keys, holding the error rate, the mean and interference as a number or None as the test reported them, and the trial count |
| App.Session.constructor | app.py:14-18 | a new session is at stage "form" with an empty record |
| App.Session.StartTest | app.py:70-94 | an invalid form leaves the stage and record unchanged; a valid one stores the demographics and moves to "math" |
| App.Session.MathPass | app.py:98-105 | a math result is merged and moves to "transition"; None leaves everything unchanged |
| App.Session.TransitionPass | app.py:109-116 | "transition" always moves to "stroop", record unchanged |
| App.Session.StroopPass | app.py:120-127 | a Stroop result is merged and moves to "save"; None leaves everything unchanged |
| App.Session.SavePass | app.py:131-153 | each pass stamps EndTime; "Finish" clears the session back to "form" with an empty record |
| App.CompleteSession | app.py:14-153 | a whole session saves a record with every field and the values gathered, and then returns to an empty form |
| App.StartWithoutConsent | app.py:70-73 | starting without consent reports the error and leaves an empty form |

## Left out

- Streamlit rendering, widgets, `st.rerun` and `st_autorefresh`: each user action or refresh is one method call (one pass).
- The 0.40/0.35/0.25 tier weights and the uniform choices: the draws are parameters with their range constraints; probabilities are not modelled.
- `time.time()`, `time.sleep(3)`, `datetime.now()` and the mm:ss countdown display: clock readings are parameters; the 3-second pause is display only.
- The expression text (`f"{a} + {b}"`) and `eval` on it: the model builds the tree Python's parser produces for that text and evaluates the tree.
- Floating point and `round(..., 2)`: all ratios are exact reals and no rounding is modelled.
- pandas: the aggregation is over the list of rows; NaN is `None`.
- Builtins.ParseInt: models `int()` on ASCII digits with an optional sign, single underscores and the 4300-digit limit; non-ASCII decimal digits, which `int()` also accepts, are not modelled.
- Builtins.Lower: ASCII letters only, which covers the four button labels.
- Writing the CSV file (`os.path.exists`, `to_csv`): I/O. The save branch also re-runs on the pass that handles "Finish", which would write the row a second time; persistence is not modelled, so neither is that.
- The demographic select-box option lists: the form fields are free strings.
