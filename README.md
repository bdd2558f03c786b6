# Plant Disease Classifier — a Dafny model of its decision logic

The Plant Disease Classifier is a React page that uploads a leaf photo to a
Flask service. The service first asks an ImageNet classifier whether the photo
shows a plant at all, and then asks a disease model which of 38 crop/disease
classes it shows. It answers with a diagnosis: display name, confidence band,
treatment advice, confidence, and an is-plant flag. The page shows this
diagnosis with a colour and an icon chosen from the band text.

This project models the deterministic parts of both sides and proves what they
promise. Both neural networks are treated as inputs: the ranked ImageNet
predictions and the disease model's score vector.

- `common.dfy` — `Option` and `Result`.
- `text.dfy` — the string operations the code relies on:
  - ASCII lower-casing;
  - substring search (`includes` / Python `in`), with a recursive and a positional definition proved equal;
  - Python's left-to-right `str.replace`.
- `api.dfy` — the HTTP contract between the two sides:
  - the multipart request to `POST /predict`;
  - the JSON bodies (`{error}` or a diagnosis) and the status code.
- `severity_style.dfy` — `getSeverityColor` / `getSeverityIcon`. Both are
  reduced to one category choice: high, moderate, low or the default (healthy).
- `frontend.dfy` — the React component as a class. Its fields are the six
  `useState` cells, and its methods are the handlers. Two things come from outside:
  - the `fetch` outcome is a parameter of `HandleSubmit` (`FetchOk(data)`, `FetchNotOk` or `FetchThrown`);
  - the `FileReader` completion is an event of its own, `ReaderLoadEnd`.
- `catalogue.dfy` — the `CLASS_LABELS` list and the `TREATMENTS` table, with
  their literal contents, and the `TREATMENTS.get` lookup with its default.
- `plant_check.dfy` — the decision loop of `is_plant_image`:
  - `IsPlantImage` is the nested loop with its early return, proved equal to the specification function `Detect`;
  - `Detect` and the lemmas about it are stated for any keyword list.
- `backend.dfy` — the `/predict` route (`Predict`): the 400 for a missing
  `image` field, the not-a-plant answer, `np.argmax`, the display name, the
  confidence bands, the treatment lookup and the 500 answers.
- `end_to_end.dfy` — facts that cross the HTTP boundary:
  - every severity text the backend emits is shown in its own category;
  - the request the page sends is never rejected with 400;
  - one upload-and-submit session opens the results page exactly when the backend answers 200.

Every handler keeps the controller invariant `Valid`: the results page is
shown exactly when a result is held, and only while an image is selected.
The constructor establishes it.

Four keywords are never matched: `bell_pepper`, `head_cabbage`,
`butternut_squash` and `spaghetti_squash` contain `_`, and labels are
normalised with `_` turned into a space before the search
(`DeadKeywords`). This has no visible effect on the answer, because `pepper`,
`cabbage` and `squash` are keywords of their own.

Where the service fails, the model names the Python exception that the
surrounding `try` turns into a 500 answer:
- an empty prediction list fails on `decoded[0]`;
- an empty score vector fails in `np.argmax`;
- a class index past the 38 labels fails in `CLASS_LABELS[...]`;
- an unreadable image fails in PIL.

## Model

| member | source | states |
|---|---|---|
| `Text.ContainsIffOccurs` | src/App.js:82 | the recursive substring test used for `includes` and Python `in` holds exactly when the pattern occurs at some position |
| `Text.Lower` | src/App.js:82 | lower-casing keeps the length and lower-cases each character on its own |
| `Text.ReplaceAll` | backend/app.py:132 | `replace` of a pattern that does not occur returns the string unchanged |
| `Text.ReplaceSkipsPrefix` | backend/app.py:193 | a leading part in which the pattern cannot start is copied unchanged, and replacing continues after it |
| `Text.ReplaceAtStart` | backend/app.py:193 | an occurrence at the start is replaced, and the scan resumes after it, never rescanning the replacement |
| `Text.ReplaceCharRemoves` | backend/app.py:132 | replacing every `_` by a space leaves no `_` behind |
| `Text.ReplaceAbsent` | backend/app.py:193 | `replace` of a pattern whose first character is absent returns the string unchanged |
| `SeverityStyle.Mentions` | src/App.js:82 | an absent severity mentions nothing; a present one mentions a word exactly when the word occurs at some position of its lower-cased text |
| `SeverityStyle.Classify` | src/App.js:81-101 | the first word mentioned in the lower-cased text, in the order high, moderate, low, decides the category: high exactly when "high" occurs; moderate exactly when "moderate" occurs and "high" does not; low exactly when "low" occurs and neither of the others does; the default otherwise, and always for an absent severity |
| `SeverityStyle.SeverityColor` | src/App.js:81-90 | the badge colour is the tint of the text's category |
| `SeverityStyle.SeverityIcon` | src/App.js:92-101 | the icon is the icon of the text's category, and its tint is the badge colour |
| `SeverityStyle.CategoriesDistinguishable` | src/App.js:83-89 | the four categories have four different colours |
| `SeverityStyle.CaseInsensitive` | src/App.js:82-86 | texts equal after lower-casing fall in the same category |
| `SeverityStyle.ExampleUpperCaseHigh` | src/App.js:82 | "HIGH" is shown as high |
| `SeverityStyle.ExampleModerateRisk` | src/App.js:84 | "Moderate risk" is shown as moderate |
| `SeverityStyle.ExampleDefault` | src/App.js:81-89 | an absent severity and "N/A" get the default category |
| `Frontend.PredictRequest` | src/App.js:49-56 | the request goes to `http://localhost:5000/predict` by POST, and its only form field is `image`, carrying the selected file |
| `Frontend.PlantDiseaseClassifier.constructor` | src/App.js:5-10 | the upload page, with no image, no preview, no result, no error and not loading; the invariant holds |
| `Frontend.PlantDiseaseClassifier.ShownCategory` | src/App.js:236-247 | a category is shown exactly on the results page holding a result, and it is the category of that result's severity text |
| `Frontend.PlantDiseaseClassifier.HandleImageUpload` | src/App.js:12-23 | no file changes nothing; a file becomes the selected image and clears the error; the preview, page, result and loading flag are untouched; the invariant is kept |
| `Frontend.PlantDiseaseClassifier.HandleDrop` | src/App.js:25-37 | a missing file, or one whose type does not start with `image/`, changes nothing; otherwise it acts as selecting the file |
| `Frontend.PlantDiseaseClassifier.ReaderLoadEnd` | src/App.js:17-19 | the reader's completion sets the preview to its result and nothing else |
| `Frontend.PlantDiseaseClassifier.HandleSubmit` | src/App.js:43-71 | with no image nothing is sent and no cell changes. Otherwise the `image` request is sent and loading ends false on every path. An ok outcome stores the data, opens the results page and leaves the error cleared. A non-ok or thrown outcome keeps page and result and sets the fixed failure message. |
| `Frontend.PlantDiseaseClassifier.HandleBackToHome` | src/App.js:73-79 | back on the upload page with image, preview, result and error emptied, loading unchanged; the invariant is kept |
| `Catalogue.TableMatchesLabels` | backend/app.py:21-102 | 38 labels, each a key of the treatment table, and every key is a label |
| `Catalogue.EntriesAreSpecific` | backend/app.py:63-102 | no table entry is the default advice |
| `Catalogue.TreatmentFor` | backend/app.py:204 | a disease in the table gets its entry; the default advice is returned exactly for a disease outside the table |
| `Catalogue.EveryLabelHasAdvice` | backend/app.py:190-204 | every label the disease model can name gets its own table entry, never the default |
| `PlantCheck.KeywordHitIff` | backend/app.py:133-134 | the keyword scan hits exactly when some keyword occurs in the normalised label |
| `PlantCheck.KeywordHitMonotone` | backend/app.py:133-140 | a hit among the first keywords stays a hit when more keywords are scanned |
| `PlantCheck.FirstStrong` | backend/app.py:131-140 | the position of the first prediction, in list order, that matches a keyword with probability above 0.1; none when no prediction does |
| `PlantCheck.BestMatch` | backend/app.py:135-137 | the running best match, when there is one, is a position in the list |
| `PlantCheck.BestMatchIsBest` | backend/app.py:128-137 | the running best is a matching prediction with positive probability and the greatest one among matches, the first on ties; with no best, every match has probability at most 0 |
| `PlantCheck.IsPlantImage` | backend/app.py:127-146 | the nested loop with its early return computes `Detect` |
| `PlantCheck.ScanKeywords` | backend/app.py:132-140 | one prediction's keyword scan: it stops early exactly for a strong match, otherwise it raises the running maximum and best match exactly for a matching, higher probability |
| `PlantCheck.ScanStep` | backend/app.py:135-137 | one more prediction advances the running maximum and best match only on a matching, higher probability |
| `PlantCheck.ScanComplete` | backend/app.py:142-146 | once every prediction is scanned without a strong match, the answer is decided by the running maximum against 0.05 |
| `PlantCheck.StrongMatchReturnsFirst` | backend/app.py:139-140 | the first strong match in list order is returned with its label and probability |
| `PlantCheck.RejectedIffAllWeak` | backend/app.py:127-146 | a non-empty list always gets an answer; the image is rejected exactly when every matching prediction has probability at most 0.05, and the rejection carries the first prediction's label and probability |
| `PlantCheck.FallbackReportsBest` | backend/app.py:142-144 | without a strong match, an acceptance reports the matching prediction with the greatest probability (the first on ties), and that probability lies in (0.05, 0.1] |
| `PlantCheck.Detect` | backend/app.py:127-146 | the check fails exactly for an empty prediction list; an acceptance reports a prediction that matches a keyword; a rejection reports the first prediction |
| `PlantCheck.Normalise` | backend/app.py:132 | a normalised label has the label's length and contains no `_` |
| `PlantCheck.UnderscoreKeywordNeverMatches` | backend/app.py:132-134 | a keyword containing `_` never occurs in a normalised label |
| `PlantCheck.DeadKeywords` | backend/app.py:117-134 | `bell_pepper`, `head_cabbage`, `butternut_squash` and `spaghetti_squash` never match |
| `Backend.ArgMax` | backend/app.py:186 | a position of the greatest score, and the first such position |
| `Backend.Predict` | backend/app.py:148-216 | 400 exactly when the `image` field is missing, with the "No image provided" body; every answer is 200, 400 or 500; 200 exactly when the body is a diagnosis |
| `Backend.DisplayName` | backend/app.py:193 | a display name contains no `_` |
| `Backend.DisplayNameSplitsCropAndCondition` | backend/app.py:193 | a label `Crop___Condition` with no `_` in the crop is displayed as `Crop - Condition`, the condition displayed on its own, because `___` is rewritten before single underscores |
| `Backend.PlainLabelDisplayedAsIs` | backend/app.py:193 | a label without `_` is displayed unchanged |
| `Backend.SeverityBand` | backend/app.py:196-201 | High exactly above 85, Moderate exactly in (70, 85], Low exactly at or below 70 |
| `Backend.BandBoundaries` | backend/app.py:196-201 | exactly 85 falls to Moderate and exactly 70 to Low |
| `Backend.NotPlantAdvice` | backend/app.py:170 | the not-a-plant advice is the opening `This image appears to be "`, then the class name, then the closing request to upload a plant leaf |
| `Backend.NotPlantResponse` | backend/app.py:164-173 | the not-a-plant diagnosis is sent exactly when the plant check rejects; it has status 200, disease "Not a Plant", severity "N/A", confidence 0, and as treatment the advice naming the first prediction's class |
| `Backend.PlantDiagnosis` | backend/app.py:190-212 | the plant diagnosis of class `k` has the label's display name (without `_`), the band of its confidence, the label's own table entry (never the default), that confidence, and is-plant set |
| `Backend.PlantResponse` | backend/app.py:185-212 | a plant diagnosis comes from a non-empty score vector. Its disease is the argmax label's display name, without `_`. Its confidence is that score in percent and its severity is that confidence's band. Its treatment is the label's own table entry, never the default. |
| `EndToEnd.HighConfidenceIsHigh` | backend/app.py:197 | "High Confidence" is shown in the high category |
| `EndToEnd.ModerateConfidenceIsModerate` | backend/app.py:199 | "Moderate Confidence" is shown in the moderate category |
| `EndToEnd.LowConfidenceIsLow` | backend/app.py:201 | "Low Confidence" is shown in the low category |
| `EndToEnd.NotApplicableIsDefault` | backend/app.py:169 | "N/A" falls through to the default category |
| `EndToEnd.EmittedSeveritiesClassified` | backend/app.py:166-201 | each of the four severity texts lands in its own category, and "N/A" in the default |
| `EndToEnd.BandCategory` | backend/app.py:196-201 | the category shown for a plant follows the confidence thresholds 85 and 70 |
| `EndToEnd.BandCategoryMonotone` | backend/app.py:196-201 | a higher confidence is never shown in a lower category |
| `EndToEnd.ResponseCategory` | backend/app.py:166-212 | every diagnosis is shown as default for a non-plant, and otherwise in its confidence band's category |
| `EndToEnd.DiagnosisCategory` | src/App.js:81-101 | a diagnosis whose severity is its confidence band, or "N/A" for a non-plant, is shown in the category of the thresholds 85 and 70, or the default |
| `EndToEnd.SubmittedRequestNotRejected` | src/App.js:49-56 | the request the page sends always has the `image` field, so it is never answered 400 |
| `EndToEnd.Deliver` | src/App.js:53-62 | a 2xx answer is delivered as its parsed diagnosis, any other answer as not ok; `fetch` does not throw on an answer it received |
| `EndToEnd.AnalyzeOnce` | src/App.js:43-71 | selecting a file and submitting it opens the results page exactly when the backend answers 200, and then shows the category of the backend's severity text |

## Left out

- JSX rendering, CSS class strings and the lucide icon components are left out. Only the category that `getSeverityColor` / `getSeverityIcon` select is modelled.
- `handleDragOver` is left out: it only calls `preventDefault`.
- `FileReader` data-URI decoding is left out. The preview is an opaque string delivered by `ReaderLoadEnd`.
- `fetch`, `FormData`, HTTP transport and JSON parsing are left out. The outcome is a parameter of `HandleSubmit`.
- `EndToEnd.Deliver` covers only answers whose 2xx body is a diagnosis, which is what `Predict` produces. It does not model a failing `response.json()` or a network error.
- The `await` in `handleSubmit` is not split. `HandleSubmit` runs to completion, so two overlapping submits and other events during the request are not modelled. There is also no timeout or cancellation.
- Flask routing, CORS, the `/health` endpoint and `app.run` are I/O plumbing and are not part of this model.
- TensorFlow/Keras model loading and inference, MobileNetV2 `decode_predictions`, PIL image opening and resizing, and numpy preprocessing are foreign libraries. Their outputs are inputs here (`Backend.Inference`), and a PIL failure is the `Unreadable` case.
- Floating point is not modelled. Probabilities and confidence are reals, compared only; `float(...) * 100` is exact multiplication.
- `Backend.PlantResponse`: the confidence is reported unrounded, without `round(confidence, 2)`.
- `EndToEnd.ResponseCategory`: the category follows the band of the unrounded confidence, which is also the confidence the model reports. In the service the reported confidence is rounded to two places, so within 0.005 of 70 or 85 the shown category can disagree with the rule applied to the reported number. For example, a score of 0.85004 is sent as confidence 85.0 with "High Confidence".
- `Backend.NotPlantAdvice` omits the whole clause ` with {confidence_check*100:.1f}% confidence` after the quoted class name, because it needs float formatting. The model's message goes straight from the closing quote to `. Please upload ...`.
- Lower-casing is ASCII only. JavaScript's `toLowerCase` and Python's `lower` also fold non-ASCII characters. For the backend's severity texts and for ImageNet's class names, which are ASCII, this makes no difference.
- `PlantCheck.Normalise`: non-ASCII class labels are not modelled. Python's `lower` turns the Kelvin sign U+212A into `k` and `İ` into `i` plus U+0307, so a label such as "BROCCOLİ" matches `broccoli` in the service, but not in this model.
- `console.error` and `print` logging are left out.
- The text of exceptions that reach the 500 answer is modelled only for the cases listed above. A failure inside PIL carries an arbitrary message.
