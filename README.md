# Student performance: request validation and synthetic labels

This project models the logic of a small student-performance prediction system:

- **Two prediction services.** A documented service (`API/api.py`) and a deployed one (`summative/API/api.py`) each declare a `StudentInput` request schema with twelve fields. Each field has a hand-written validator that either returns the value unchanged or raises an error whose message names the field. The documented service also puts `Field(ge=0, le=...)` bounds on the four numeric fields. Both files carry a `feature_constraints` table listing, for each field, an inclusive numeric range or an enumeration of allowed strings.
- **The synthetic data generator** (`linear_regression/generator.py`). It samples the twelve features, clips three of the numeric samples into range, and computes the `Exam_Score` label. The label is a weighted sum of the four numeric features, plus one offset per categorical value, plus 60, plus noise, clipped into [0, 100].

Modules:

- `Student` (student.dfy) holds what is shared:
  - the `Record` of twelve features: numeric ones as `real`, categorical ones as `string`;
  - the shape of the constraint table and the table-driven check `Valid(table, record)`;
  - the error type;
  - the joining of per-field error lists.
- `Api` (api.dfy) and `SummativeApi` (summative_api.dfy) each hold the service's own copy of the table and its twelve validators. They also hold how a request goes through the schema: each field is checked, and the errors of all failing fields are reported together in declaration order. Each module proves that its validators accept exactly what its table admits.
- `Generator` (generator.dfy) holds:
  - `Clip` and the sampled rows;
  - the offset dictionaries and the label;
  - the generated frame as a class whose `Exam_Score` column is assigned in place.
- `Agreement` (agreement.dfy) relates the three files.

Notes on the model:

- **The tables are not consulted.** Neither service ever reads its `feature_constraints` table; the validators are the real authority. The model keeps the table as a value and proves that the validators and the table agree.
- **Bounds run before validators.** In the documented service the `Field` bounds are checked before the validator of the same field. A numeric field that is out of range is therefore refused with the bound it broke, never with its validator's message (`Api.NumericMessagesUnreachable`).
- **NaN for missing offsets.** `Series.map` turns a category that is missing from its dictionary into NaN, and NaN passes through `clip` unchanged. The model represents this as `None`.

## Model

| member | source | states |
|---|---|---|
| Api.ValidateHoursStudied | API/api.py:91-95 | accepts exactly 0 <= v <= 50, both ends included; a value it accepts is returned unchanged; the rejection message starts with `Hours_Studied` |
| Api.ValidateAttendance | API/api.py:97-101 | accepts exactly 0 <= v <= 100, both ends included; a value it accepts is returned unchanged; the rejection message starts with `Attendance` |
| Api.ValidateSleepHours | API/api.py:103-107 | accepts exactly 0 <= v <= 24, both ends included; a value it accepts is returned unchanged; the rejection message starts with `Sleep_Hours` |
| Api.ValidatePreviousScores | API/api.py:109-113 | accepts exactly 0 <= v <= 100, both ends included; a value it accepts is returned unchanged; the rejection message starts with `Previous_Scores` |
| Api.ValidateAccessToResources | API/api.py:115-119 | accepts exactly the strings Low, Medium, High; a value it accepts is returned unchanged; the rejection message starts with `Access_to_Resources` |
| Api.ValidateExtracurricularActivities | API/api.py:121-125 | accepts exactly the strings Yes, No; a value it accepts is returned unchanged; the rejection message starts with `Extracurricular_Activities` |
| Api.ValidateInternetAccess | API/api.py:127-131 | accepts exactly the strings Yes, No; a value it accepts is returned unchanged; the rejection message starts with `Internet_Access` |
| Api.ValidateTeacherQuality | API/api.py:133-137 | accepts exactly the strings Low, Medium, High; a value it accepts is returned unchanged; the rejection message starts with `Teacher_Quality` |
| Api.ValidateSchoolType | API/api.py:139-143 | accepts exactly the strings Public, Private; a value it accepts is returned unchanged; the rejection message starts with `School_Type` |
| Api.ValidatePeerInfluence | API/api.py:145-149 | accepts exactly the strings Positive, Negative, Neutral; a value it accepts is returned unchanged; the rejection message starts with `Peer_Influence` |
| Api.ValidateLearningDisabilities | API/api.py:151-155 | accepts exactly the strings Yes, No; a value it accepts is returned unchanged; the rejection message starts with `Learning_Disabilities` |
| Api.ValidateGender | API/api.py:157-161 | accepts exactly the strings Male, Female; a value it accepts is returned unchanged; the rejection message starts with `Gender` |
| Api.Bounded | API/api.py:42-65 | a field declared with `Field(ge=..., le=...)`: the value is accepted exactly when it lies within the bounds and the validator accepts it; a value below `ge` is refused with `BelowGe(ge)` and one above `le` with `AboveLe(le)` (the lower bound is tested first) before the validator runs, so a validator message only appears for in-bounds values |
| Api.CheckHoursStudied | API/api.py:42-45 | the field with its `Field(ge=0, le=50)` bounds and then its validator accepts exactly what the table entry for `Hours_Studied` admits, returns the value unchanged, and otherwise reports an error about `Hours_Studied` whose message, if any, names it |
| Api.CheckAttendance | API/api.py:46-49 | the field with its `Field(ge=0, le=100)` bounds and then its validator accepts exactly what the table entry for `Attendance` admits, returns the value unchanged, and otherwise reports an error about `Attendance` whose message, if any, names it |
| Api.CheckSleepHours | API/api.py:58-61 | the field with its `Field(ge=0, le=24)` bounds and then its validator accepts exactly what the table entry for `Sleep_Hours` admits, returns the value unchanged, and otherwise reports an error about `Sleep_Hours` whose message, if any, names it |
| Api.CheckPreviousScores | API/api.py:62-65 | the field with its `Field(ge=0, le=100)` bounds and then its validator accepts exactly what the table entry for `Previous_Scores` admits, returns the value unchanged, and otherwise reports an error about `Previous_Scores` whose message, if any, names it |
| Api.CheckAccessToResources | API/api.py:115-119 | the field accepts exactly what the table entry for `Access_to_Resources` admits, returns the value unchanged, and otherwise reports an error about `Access_to_Resources` whose message names it |
| Api.CheckExtracurricularActivities | API/api.py:121-125 | the field accepts exactly what the table entry for `Extracurricular_Activities` admits, returns the value unchanged, and otherwise reports an error about `Extracurricular_Activities` whose message names it |
| Api.CheckInternetAccess | API/api.py:127-131 | the field accepts exactly what the table entry for `Internet_Access` admits, returns the value unchanged, and otherwise reports an error about `Internet_Access` whose message names it |
| Api.CheckTeacherQuality | API/api.py:133-137 | the field accepts exactly what the table entry for `Teacher_Quality` admits, returns the value unchanged, and otherwise reports an error about `Teacher_Quality` whose message names it |
| Api.CheckSchoolType | API/api.py:139-143 | the field accepts exactly what the table entry for `School_Type` admits, returns the value unchanged, and otherwise reports an error about `School_Type` whose message names it |
| Api.CheckPeerInfluence | API/api.py:145-149 | the field accepts exactly what the table entry for `Peer_Influence` admits, returns the value unchanged, and otherwise reports an error about `Peer_Influence` whose message names it |
| Api.CheckLearningDisabilities | API/api.py:151-155 | the field accepts exactly what the table entry for `Learning_Disabilities` admits, returns the value unchanged, and otherwise reports an error about `Learning_Disabilities` whose message names it |
| Api.CheckGender | API/api.py:157-161 | the field accepts exactly what the table entry for `Gender` admits, returns the value unchanged, and otherwise reports an error about `Gender` whose message names it |
| Api.Outcome | API/api.py:91-161 | `@validator('<name>')` binds each validator to its field: the error list a field contributes is empty when its checks pass and holds the one error they raised otherwise |
| Api.Errors | API/api.py:41-161 | the combined validation error: the contributions of all twelve fields joined in declaration order |
| Api.Validate | API/api.py:41-161 | a refused request carries a non-empty list of errors, each naming its field |
| Api.OutcomeNamed | API/api.py:91-161 | each field contributes at most one error, about itself, and every validator message names that field |
| Api.OutcomeMatchesTable | API/api.py:25-38 | a field contributes no error exactly when the record satisfies that field's entry of `feature_constraints` |
| Api.ErrorsNamed | API/api.py:91-161 | every error in the combined list names its field |
| Api.ErrorsMatchTable | API/api.py:25-38 | no field reports an error exactly when the record satisfies every entry of `feature_constraints` |
| Api.ValidateMatchesTable | API/api.py:41-161 | a request passes the schema exactly when it satisfies every entry of `feature_constraints`, so the unused table and the validators agree |
| Api.ErrorsAreViolations | API/api.py:25-38 | an entry of the table is broken exactly when the error list holds an error for that entry's field |
| Api.ViolationReported | API/api.py:91-161 | a field that fails its checks has an error about it in the combined list |
| Api.OnlyViolationsReported | API/api.py:91-161 | a field that passes its checks has no error about it in the combined list |
| Api.NumericMessagesUnreachable | API/api.py:42-65 | a numeric field is never refused with its validator's own message, because the `Field` bounds are the same and run first: a value below 0 is refused with the `ge` bound and one above the maximum with the `le` bound |
| Api.TableCoversRecord | API/api.py:25-38 | the table constrains every request field once, in declaration order |
| SummativeApi.ValidateHoursStudied | summative/API/api.py:49-53 | accepts exactly what this service's table entry for `Hours_Studied` admits, both range ends included; returns an accepted value unchanged; the rejection message starts with `Hours_Studied` |
| SummativeApi.ValidateAttendance | summative/API/api.py:55-59 | accepts exactly what this service's table entry for `Attendance` admits, both range ends included; returns an accepted value unchanged; the rejection message starts with `Attendance` |
| SummativeApi.ValidateSleepHours | summative/API/api.py:61-65 | accepts exactly what this service's table entry for `Sleep_Hours` admits, both range ends included; returns an accepted value unchanged; the rejection message starts with `Sleep_Hours` |
| SummativeApi.ValidatePreviousScores | summative/API/api.py:67-71 | accepts exactly what this service's table entry for `Previous_Scores` admits, both range ends included; returns an accepted value unchanged; the rejection message starts with `Previous_Scores` |
| SummativeApi.ValidateAccessToResources | summative/API/api.py:73-77 | accepts exactly what this service's table entry for `Access_to_Resources` admits; returns an accepted value unchanged; the rejection message starts with `Access_to_Resources` |
| SummativeApi.ValidateExtracurricularActivities | summative/API/api.py:79-83 | accepts exactly what this service's table entry for `Extracurricular_Activities` admits; returns an accepted value unchanged; the rejection message starts with `Extracurricular_Activities` |
| SummativeApi.ValidateInternetAccess | summative/API/api.py:85-89 | accepts exactly what this service's table entry for `Internet_Access` admits; returns an accepted value unchanged; the rejection message starts with `Internet_Access` |
| SummativeApi.ValidateTeacherQuality | summative/API/api.py:91-95 | accepts exactly what this service's table entry for `Teacher_Quality` admits; returns an accepted value unchanged; the rejection message starts with `Teacher_Quality` |
| SummativeApi.ValidateSchoolType | summative/API/api.py:97-101 | accepts exactly what this service's table entry for `School_Type` admits; returns an accepted value unchanged; the rejection message starts with `School_Type` |
| SummativeApi.ValidatePeerInfluence | summative/API/api.py:103-107 | accepts exactly what this service's table entry for `Peer_Influence` admits; returns an accepted value unchanged; the rejection message starts with `Peer_Influence` |
| SummativeApi.ValidateLearningDisabilities | summative/API/api.py:109-113 | accepts exactly what this service's table entry for `Learning_Disabilities` admits; returns an accepted value unchanged; the rejection message starts with `Learning_Disabilities` |
| SummativeApi.ValidateGender | summative/API/api.py:115-119 | accepts exactly what this service's table entry for `Gender` admits; returns an accepted value unchanged; the rejection message starts with `Gender` |
| SummativeApi.Outcome | summative/API/api.py:49-119 | `@validator('<name>')` binds each validator to its field: the error list a field contributes is empty when its validator returns and holds its message otherwise |
| SummativeApi.Errors | summative/API/api.py:35-119 | the combined validation error: the contributions of all twelve fields joined in declaration order |
| SummativeApi.Validate | summative/API/api.py:35-119 | a refused request carries a non-empty list of errors, each naming its field |
| SummativeApi.OutcomeNamed | summative/API/api.py:49-119 | each field contributes at most one error, a validator message about itself that names it |
| SummativeApi.OutcomeMatchesTable | summative/API/api.py:19-32 | a field contributes no error exactly when the record satisfies that field's table entry |
| SummativeApi.ErrorsNamed | summative/API/api.py:49-119 | every reported error is a validator message that names its field |
| SummativeApi.ErrorsMatchTable | summative/API/api.py:19-32 | no field reports an error exactly when the record satisfies every table entry |
| SummativeApi.ValidateMatchesTable | summative/API/api.py:35-119 | a request passes the schema exactly when it satisfies every entry of `feature_constraints` |
| SummativeApi.ErrorsAreViolations | summative/API/api.py:19-32 | a table entry is broken exactly when the error list holds an error for that entry's field |
| SummativeApi.ViolationReported | summative/API/api.py:49-119 | a field whose validator raises has an error about it in the combined list |
| SummativeApi.OnlyViolationsReported | summative/API/api.py:49-119 | a field whose validator accepts has no error about it in the combined list |
| SummativeApi.TableCoversRecord | summative/API/api.py:19-32 | the table constrains every request field once, in declaration order |
| Generator.Clip | linear_regression/generator.py:63 | the clipped value lies in [lo, hi], equals the input when the input is already in range, and is the nearer bound otherwise |
| Generator.ClipIdempotent | linear_regression/generator.py:63 | clipping twice is clipping once |
| Generator.ClipMonotone | linear_regression/generator.py:63 | clipping preserves order |
| Generator.SampledRow | linear_regression/generator.py:29-32 | sampled Attendance and Previous_Scores land in [0, 100] and Sleep_Hours in [0, 24], and in-range samples are kept as they are |
| Generator.SampledRowValid | linear_regression/generator.py:29-42 | a row of in-range hours, any normal samples and listed categorical choices satisfies the generator's table |
| Generator.EntryAdmits | linear_regression/generator.py:11-24 | each table entry admits a row whose numeric values are in range and whose categories are listed |
| Generator.TableFields | linear_regression/generator.py:11-24 | the generator's table lists the features in declaration order |
| Generator.OffsetMap | linear_regression/generator.py:53-60 | the dictionary each categorical column is mapped through (the constants `AccessOffsets` ... `GenderOffsets` hold the offsets); numeric columns have none |
| Generator.HasOffsets | linear_regression/generator.py:53-60 | every categorical value of the row is a key of its dictionary, so no `.map` lookup yields NaN |
| Generator.CategoricalPart | linear_regression/generator.py:53-60 | the sum of the eight looked-up offsets |
| Generator.NumericPart | linear_regression/generator.py:49-52 | the weighted sum 0.4·(H/50)·100 + 0.3·(A/100)·100 + 0.2·(P/100)·100 + 0.1·(S/24)·100 |
| Generator.RawScore | linear_regression/generator.py:48-62 | the unclipped label: numeric part + offsets + 60 + noise; it exists exactly when every offset is found (NaN otherwise) |
| Generator.OffsetMapMatchesTable | linear_regression/generator.py:53-60 | each offset dictionary has an offset for exactly the values the table lists for its feature; numeric features have none |
| Generator.OffsetCovers | linear_regression/generator.py:53-60 | a categorical value satisfies its table entry exactly when its dictionary has an offset for it |
| Generator.MissingOffset | linear_regression/generator.py:53-60 | a row without all offsets has a categorical feature whose dictionary lacks the row's value |
| Generator.OffsetsTotal | linear_regression/generator.py:14-23 | every offset lookup succeeds exactly when every categorical value is one the table lists |
| Generator.ExamScore | linear_regression/generator.py:48-63 | the label exists exactly when every offset is found, lies in [0, 100] for any noise, and equals the unclipped label when that is already in range |
| Generator.ValidRowScored | linear_regression/generator.py:48-63 | a row that satisfies the table always gets a label |
| Generator.CategoricalPartBounds | linear_regression/generator.py:53-60 | the eight offsets add up to between -24 and 33 |
| Generator.NumericPartBounds | linear_regression/generator.py:49-52 | for in-range numeric features the weighted part lies in [0, 100] |
| Generator.GenderIndependent | linear_regression/generator.py:60 | changing the gender between Male and Female does not change the label |
| Generator.ScoreMonotone | linear_regression/generator.py:49-52 | raising any numeric feature never lowers the label, before or after clipping |
| Generator.RawScoreRange | linear_regression/generator.py:48-62 | for a row that satisfies the table the unclipped label lies between 36 and 193 above the noise |
| Generator.ScoreColumn | linear_regression/generator.py:48-63 | the label column has one entry per row |
| Generator.Frame.constructor | linear_regression/generator.py:29-45 | the frame has one row per sample, row i built from the i-th entry of every column with Attendance and Previous_Scores clipped into [0, 100] and Sleep_Hours into [0, 24], and no `Exam_Score` column yet |
| Generator.Frame.AssignExamScore | linear_regression/generator.py:65 | the rows are unchanged and the `Exam_Score` column is the label of every row with that row's noise |
| Generator.GeneratedFrameScored | linear_regression/generator.py:26-65 | every row generated from in-range hours and listed choices satisfies the table and gets a label in [0, 100] |
| Agreement.TablesAgree | summative/API/api.py:19-32 | the three copies of `feature_constraints` are equal |
| Agreement.VariantsAcceptSameRecords | summative/API/api.py:49-119 | both services accept exactly the same requests, and both then hold the request unchanged |
| Agreement.VariantsRefuseSameFields | summative/API/api.py:49-119 | the two services refuse the same fields, with identical errors for categorical fields; for a numeric field the documented service reports a bound and the deployed one a message |
| Agreement.ValidatorsAgree | summative/API/api.py:49-119 | the hand-written validators of the two services agree on every value, message included |
| Agreement.BoundariesAccepted | API/api.py:42-65 | in the documented service both ends of each numeric range are accepted and values just outside are refused |
| Agreement.SummativeBoundariesAccepted | summative/API/api.py:49-77 | in the deployed service both ends of the hours range are accepted and values just outside are refused; a wrongly cased or empty category is refused |
| Agreement.GeneratedRowsAccepted | linear_regression/generator.py:29-42 | every generated row is a request both services accept |

## Left out

- FastAPI application setup, CORS middleware, routes, the root endpoint, uvicorn startup and the `schema_extra` example: these are framework wiring with no logic.
- The `/predict` endpoint: `joblib.load` of the trained model, `best_model.predict`, the DataFrame built from the request, `round(prediction, 2)` and the `try/except` that turns any failure into HTTP 500. The regression model is an opaque third-party artifact, and the rest is file I/O and floating-point rounding.
- Pydantic coercion of JSON into `float` and `str`, and the HTTP 422 response built from validation errors. A request is modelled as an already typed `Record`. The combined error list keeps each field's error and its reason: a validator message, or the `Field` bound broken.
- Random sampling: `np.random.seed`, the uniform, normal and choice distributions, their probabilities and `n_samples`. The sampled values and the noise are parameters. `Generator.SampledRowValid` and `Agreement.GeneratedRowsAccepted` assume what the sampling guarantees: uniform hours in [0, 50] and categorical choices from the listed values.
- `df.to_csv`: this is file output.
- IEEE floating point: the numeric features and the label are `real`, so rounding error in the weighted sum, and NaN or infinite numeric inputs, are not modelled.
- Generator.Frame: the frame is modelled as a sequence of rows plus an optional label column, not as pandas' column store. The `data` dictionary being filled key by key is folded into the `Columns` value handed to the constructor.
- Generator.Frame.constructor: requires all columns to have the same length. `pd.DataFrame` raises on columns of different lengths, and the generator always builds them with `n_samples` entries.
