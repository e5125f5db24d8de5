# Ride cancellation decision engine — Dafny model

This project models the inference script of a ride-hailing cancellation
predictor. The script reads one booking request, normalises its two category
inputs, and checks them against the label encoders fitted at training time.
Only when both categories are known are they replaced by their integer codes.
The script then decides through an ordered cascade, where the first matching
branch wins:

1. an unknown vehicle type or payment method cancels;
2. a late-night hour (23 or later, 5 or earlier) cancels;
3. a ride shorter than 2 km paid in `Cash` cancels;
4. otherwise the trained classifier decides: label 1 cancels, any other label
   does not.

The model has three modules:

- `Text` (`text.dfy`) holds Python's `str.strip()`, `str.upper()` and
  `str.title()` on ASCII text, with their characterisations.
- `Encoding` (`encoding.dfy`) holds a fitted label encoder as a value: its
  `classes_` list, membership, `transform` (index-of) and `inverse_transform`.
- `Prediction` (`prediction.dfy`) holds the script itself. `Cascade` is the
  pure specification of the decision. `Predict` is the step-by-step script,
  proved equal to it. The one-row data frame is the class `Frame`, whose
  category columns `SafeEncode` overwrites in place.

The classifier is a parameter of type `seq<real> -> int`. It receives the
row `[vehicle code, payment code, ride distance, booking hour]`, in the
column order the request frame is built with. The artifacts (two encoders
and the model) are passed in as the value `Artifacts`. The raw request is
passed in as the value `Request`. Distance is a `real`. The hour is an
unbounded `int`, because the script never range-checks it.

The model follows the code as written:

- The reason strings are the script's own (src/predict.py:61, 66, 71, 78),
  for example "Late-night ride with low driver availability".
- Any classifier label other than 1 gives `NOT CANCELLED`, not only 0.
- Hours outside 0..23 are not rejected. A negative hour takes the late-night
  branch, and so does an hour of 24 or more.
- The decision strings are `CANCELLED` and `NOT CANCELLED`, with a space.

## Model

| member | source | states |
|---|---|---|
| Text.Strip | src/predict.py:20 | `strip()` leaves no whitespace at either end and never lengthens the string; characterised fully by `StripSpec` and `StripPadded` |
| Text.StripLeftSpec | src/predict.py:18-24 | removing leading whitespace keeps a suffix that starts with a non-space; everything removed is whitespace |
| Text.StripRightSpec | src/predict.py:18-24 | removing trailing whitespace keeps a prefix that ends with a non-space; everything removed is whitespace |
| Text.StripSpec | src/predict.py:18-24 | `strip()` gives a contiguous slice of the input with no whitespace at either end, and only whitespace lies outside it |
| Text.StripTrimmed | src/predict.py:18-24 | a string with no whitespace at either end is its own strip |
| Text.StripIdempotent | src/predict.py:18-24 | stripping twice is stripping once |
| Text.StripPadded | src/predict.py:18-24 | `strip()` removes any whitespace padding around a trimmed string and returns exactly that string |
| Text.Upper | src/predict.py:20 | `upper()` maps one character to one and capitalises the first; characterised fully by `UpperSpec` |
| Text.UpperSpec | src/predict.py:18-20 | `upper()` keeps the length, maps each character on its own, leaves no lower-case letter, and keeps a trimmed string trimmed |
| Text.UpperIdempotent | src/predict.py:18-20 | upper-casing twice is upper-casing once |
| Text.Title | src/predict.py:24 | `title()` maps one character to one and capitalises the first; characterised fully by `TitleSpec` |
| Text.TitleFromSpec | src/predict.py:22-24 | the left-to-right title-casing scan decides each character from the input character before it |
| Text.TitleSpec | src/predict.py:22-24 | `title()` keeps the length; a letter becomes a capital exactly when the input character just before it is not a letter, and lower-case otherwise; other characters are kept |
| Text.TitleTrimmed | src/predict.py:22-24 | title-casing keeps a trimmed string trimmed |
| Text.TitleIdempotent | src/predict.py:22-24 | title-casing twice is title-casing once |
| Prediction.Normalise | src/predict.py:18-24 | the normalised vehicle type and payment method have no surrounding whitespace, the vehicle type has no lower-case letter, and distance and hour are kept |
| Prediction.NormaliseIdempotent | src/predict.py:17-24 | normalising a normalised request changes nothing |
| Prediction.PaymentSpellings | src/predict.py:22-24 | `" cash"` and `"CASH"` normalise to `"Cash"`, and `"online "` to `"Online"` |
| Prediction.SamplePaymentSpellings | src/predict.py:22-24 | the sample payment methods `"Cash"` and `"Online"` are left unchanged by normalisation |
| Prediction.VehicleSpelling | src/predict.py:18-20 | `"sedan "` normalises to `"SEDAN"` |
| Prediction.SampleVehicleSpellings | src/predict.py:18-20 | the sample vehicle types `"Helicopter"`, `"Sedan"`, `"SUV"` and `"Mini"` normalise to the upper-case spellings the scenarios use |
| Prediction.UpperOfTrimmed | src/predict.py:18-20 | a word without surrounding whitespace normalises to its character-by-character capitals |
| Encoding.Encoder.Contains | src/predict.py:40-43 | `category in classes_` holds exactly when some position of the classes holds the category |
| Encoding.IndexOf | src/predict.py:47-52 | the result is present exactly when the category is in the list, and is then its first position |
| Encoding.Encoder.Transform | src/predict.py:46-52 | `transform` gives a code exactly for a known category, and that code is the category's position in `classes_`; an unknown category is the unseen-label error |
| Encoding.Encoder.InverseTransform | src/predict.py:47-52 | the inverse of the encoding used at lines 47-52: a code decodes exactly when it lies in 0 .. number of classes - 1, and then to the class at that position |
| Encoding.DecodeEncode | src/predict.py:47-52 | a known category decodes back to itself after encoding |
| Encoding.EncodeDecode | src/train.py:25-26 | in a fitted encoder (each class once), every position is the code of the class stored there |
| Encoding.TransformInjective | src/predict.py:47-52 | two categories that get the same code are the same category |
| Prediction.FeatureRow | src/predict.py:30-52 | the classifier's row has four columns: the vehicle and payment codes as whole numbers, each the code `Transform` gives the request's category and decoding back to it, then the distance and the hour unchanged |
| Prediction.Cascade | src/predict.py:55-81 | the unknown-category reason is given exactly when a category is unknown, and every reason other than the model's cancels; `CascadeIsFirstMatch` and the boundary lemmas characterise it branch by branch |
| Prediction.Frame.constructor | src/predict.py:30-35 | the frame holds the two category strings, the distance and the hour of the request |
| Prediction.SafeEncode | src/predict.py:37-52 | the unknown-category flag is raised exactly when either category is missing from its encoder; if raised the frame is untouched, otherwise both category columns hold their codes; distance and hour never change |
| Prediction.Frame.Row | src/predict.py:75 | the encoded frame read as the classifier's row: both codes as whole numbers equal to the frame's codes in the first two columns, distance and hour unchanged in the last two |
| Prediction.Predict | src/predict.py:17-81 | the script's (decision, reason) pair equals the cascade on the normalised request; both start unset and every path sets them |
| Prediction.FirstMatch | src/predict.py:55-81 | the rule chosen is in the list, its condition holds, and no rule before it has a holding condition |
| Prediction.CascadeIsFirstMatch | src/predict.py:58-81 | the reason given is the first branch, in script order, whose own condition holds |
| Prediction.UnknownCategoryOverrides | src/predict.py:58-61 | an unknown category gives CANCELLED with the unknown-category reason, whatever the hour and distance |
| Prediction.LateNightBoundary | src/predict.py:63-66 | with known categories, the late-night branch decides exactly when the hour is at least 23 or at most 5, and it cancels |
| Prediction.ShortCashBoundary | src/predict.py:68-71 | with known categories and an hour in 6..22, the short-cash branch decides exactly when the distance is below 2 and the payment is `"Cash"`, and it cancels |
| Prediction.ModelDecides | src/predict.py:73-81 | when no override applies the reason is the model prediction, and the outcome is CANCELLED exactly when the classifier gives 1 on [vehicle code, payment code, distance, hour] |
| Prediction.OnlyModelClears | src/predict.py:55-81 | NOT CANCELLED only comes from the model branch; every override cancels |
| Prediction.UnseenVehicleScenario | src/predict.py:58-61 | with sample encoders, vehicle type HELICOPTER is cancelled by the unknown-category override |
| Prediction.ShortCashScenario | src/predict.py:68-71 | with sample encoders, SEDAN, Cash, 1.5 km at 14h is cancelled by the short-cash override |
| Prediction.LateNightScenario | src/predict.py:63-66 | with sample encoders, SUV, Online, 10 km at 1h is cancelled by the late-night override |
| Prediction.ModelScenario | src/predict.py:73-81 | with sample encoders, MINI, Online, 8 km at 14h is decided by the classifier on the row [1, 1, 8, 14] |

## Left out

- Loading the three artifacts from disk (src/predict.py:5-12) is left out: the artifacts are a parameter.
- The console prompts, and the parsing of distance and hour with `float()` and `int()`, are left out (src/predict.py:14-27). A malformed number raises before any logic runs. The model takes the parsed values.
- Printing the result (src/predict.py:83-87) is left out. `Outcome.Name` and `Reason.Message` give the printed strings.
- The classifier's internals are left out: it is an arbitrary total function from the feature row to an integer label. Its training, and the float32 conversion scikit-learn applies to the row, are not modelled.
- Distances that are NaN or infinite are not modelled: `real` has no such values. In Python a NaN distance fails `< 2` and falls through to the model.
- Text.Upper and Text.Title: only ASCII letters change case, and only ASCII whitespace is stripped. Python's full Unicode mappings are not modelled, including characters whose upper case is longer than one character. `Title` also decides where a word starts on ASCII letters only: a non-ASCII cased letter such as `é` does not count as a letter, so the model gives `"éA"` for `"éa"` where Python gives `"Éa"`.
- Encoding.Encoder.Transform: it models `transform` on one category. The array form is left out. For string categories scikit-learn looks the category up in a table from class to index; with a repeated class that table would give the last index, where `IndexOf` gives the first. On an encoder with distinct classes, as a fitted encoder has, the two agree.
- The script never decodes a code back to its category. `InverseTransform` is kept as the inverse against which `DecodeEncode` and `EncodeDecode` state the round trip of `Transform`.
- Fitting the encoders (sorted distinct classes, src/train.py:22-26) is left out. Valid() only requires distinct classes, which is all the prediction relies on. Train/test split, model fitting, accuracy reporting and saving (src/train.py) are left out too.
- The pandas data frame is reduced to the one row the script builds. Column names are the fields of `Frame`.
- src/clean_data.py is not part of this model: it is a CSV transform. src/eda.py is not part of this model: it only plots and writes summaries.
- The scenario lemmas state the sample requests in their normalised spelling (for example `SEDAN` for `Sedan`). The normalisation of those spellings is covered by `SampleVehicleSpellings` and `SamplePaymentSpellings`, and in general by `Normalise`.
