# AgroHelper pest classifier: a verified model

AgroHelper is a browser page that identifies crop pests. The user uploads a
photo, an image classifier scores it, and the page shows up to three result
cards. Each card carries a pest name, a scientific name, a confidence, a
description, three remedies and a severity. The page also has a "describe"
tab, which turns a crop choice and a symptom text into a mocked diagnosis.

This project models the logic behind those cards:

- `JsText` (text.dfy) holds the JavaScript string operations the parser
  relies on: `split` on one character, `trim`, and the decimal rendering of
  an index.
- `Labels` (labels.dfy) is the parser that turns `labels.txt` into the label
  table.
- `Ranking` (ranking.dfy) is the post-processing of `predict`. It keeps the
  probabilities above 0.1, names them and rounds them to percentages. Then it
  applies the stable sort by descending confidence and keeps the first three.
  The sort is an in-place insertion sort on an array, proved equal to a
  functional stable sort.
- `Detector` (detector.dfy) is the `PlagueDetectionModel` class. It has the
  fields `model`, `labels` and `isModelLoaded`, and the methods `loadModel`,
  `predict` and `dispose`.
- `Knowledge` (knowledge.dfy) holds the four lookup tables of the page script
  with their defaults. It also has a model of how the tables read inherited
  object keys (see Findings).
- `App` (app.dfy) covers three pieces of the page script. The first is the
  analyse handler: it enriches the predictions into cards, and falls back to
  the fixed example card when loading or prediction fails. The second is the
  severity colours of a card. The third is the describe handler.
- `Outcomes` and `Seqs` (common.dfy) are small shared helpers.

The model works on these abstractions:

- The network, the model file and the inference runtime are inputs.
  `LoadOutcome` says how loading ended and carries the label text. `Inference`
  is either the probability vector or a runtime error.
- Probabilities are reals, and `Math.round` is rounding half up.
- The describe handler's two `Math.random()` draws are parameters in [0, 1).

A label line with a colon keeps `split(':')[1]`, which is the text between
the first and the second colon, so `"0: a:b"` yields `"a"`.

## Model

| member | source | states |
|---|---|---|
| JsText.Trim | js/tf-model.js:21 | The result has no whitespace at either end and is empty exactly when the line is all ECMAScript whitespace. |
| JsText.TrimPadded | js/tf-model.js:21 | Trimming whitespace padding around a string with non-blank ends gives back exactly that string. |
| JsText.TrimAddsNothing | js/tf-model.js:21 | Trimming adds no character, so a trimmed piece without a colon has none. |
| JsText.TrimIdempotent | js/tf-model.js:21 | Trimming twice is the same as trimming once. |
| JsText.FirstIndex | js/tf-model.js:21 | The position of the first occurrence of a character, or the length when there is none. |
| JsText.Split | js/tf-model.js:19 | `split` yields at least one piece, and no piece contains the separator. |
| JsText.JoinSplit | js/tf-model.js:19 | Joining the pieces with the separator gives the text back, so splitting loses nothing but the separators. |
| JsText.SplitHead | js/tf-model.js:21 | The first piece is the text before the first separator. |
| JsText.SplitAtFirst | js/tf-model.js:21 | When the separator occurs, the split cuts at its first occurrence and then splits the rest. |
| JsText.DecimalDigits | js/tf-model.js:59 | `${i}` is a non-empty string of decimal digits with no leading zero. |
| JsText.DecimalRoundTrip | js/tf-model.js:59 | Reading the rendered digits gives the index back. |
| Labels.ParseLine | js/tf-model.js:21 | A parsed line neither starts nor ends with whitespace. |
| Labels.ParseLineMeaning | js/tf-model.js:21 | A line with a colon gives the trimmed text between its first and second colon. A line without a colon gives the whole line trimmed. No label contains a colon. |
| Labels.ParseLines | js/tf-model.js:19-21 | The `map` step produces one entry per line, in line order. |
| Labels.DropEmpty | js/tf-model.js:22 | The `filter` step leaves no empty label. |
| Labels.DropEmptySelects | js/tf-model.js:22 | The filter keeps exactly the non-empty entries, in their original order. |
| Labels.ParseLabels | js/tf-model.js:19-22 | The label table never contains the empty string. |
| Labels.LabelsKeepLineOrder | js/tf-model.js:19-22 | The k-th label is the parse of the k-th line whose parse is non-empty. Line order is kept, and a line contributes exactly when its parse is non-empty. |
| Ranking.Round | js/tf-model.js:60 | `Math.round(x)` lies in (x - 0.5, x + 0.5]. |
| Ranking.Percent | js/tf-model.js:57-60 | A probability above the 0.1 threshold reports a confidence of at least 10, and a probability of at most 1 reports at most 100. |
| Ranking.LabelFor | js/tf-model.js:59 | The name given to an index is never empty. |
| Ranking.LabelForMeaning | js/tf-model.js:59 | An index inside the table is named by its entry. An index past the table is named "Plaga " followed by its decimal digits, from which the index can be read back. |
| Ranking.Candidates | js/tf-model.js:55-63 | The loop pushes at most one entry per index, each with a confidence of at least 10. |
| Ranking.CandidatesSelect | js/tf-model.js:55-63 | The k-th pushed entry comes from the k-th index with probability strictly above 0.1. Its label is that index's label and its confidence is `Math.round(p*100)`. |
| Ranking.InsertDesc | js/tf-model.js:66 | One insertion step of the stable sort grows the list by exactly one entry. |
| Ranking.InsertDescAt | js/tf-model.js:66 | The new entry lands right after the leading entries of at least its confidence. Those entries stay before it and the rest follow it, in order. |
| Ranking.SortDesc | js/tf-model.js:66 | Sorting keeps the number of entries. |
| Ranking.InsertDescPermutes | js/tf-model.js:66 | One insertion step adds its element and loses nothing. |
| Ranking.SortDescPermutes | js/tf-model.js:66 | The sorted list is a permutation of the pushed list. |
| Ranking.InsertDescSorted | js/tf-model.js:66 | Inserting into a list ordered by confidence keeps it ordered. |
| Ranking.SortDescSorted | js/tf-model.js:66 | The sorted list has non-increasing confidences. |
| Ranking.InsertDescStable | js/tf-model.js:66 | An insertion places the new entry after every entry of equal confidence. |
| Ranking.SortDescStable | js/tf-model.js:66 | The sort is stable: for every confidence, its entries keep their index order. |
| Ranking.SortByConfidence | js/tf-model.js:66 | The in-place sort of the array leaves exactly the stable descending sort of its old contents. |
| Ranking.InsertLast | js/tf-model.js:66 | One pass moves the next element into the sorted prefix and leaves the rest of the array alone. |
| Ranking.PostProcess | js/tf-model.js:55-68 | The result has at most three entries, and no more than there are probabilities. |
| Ranking.PostProcessLength | js/tf-model.js:68 | `predict` returns min(3, number of candidates) entries. |
| Ranking.PostProcessOrdered | js/tf-model.js:57-68 | The returned confidences never increase and are all at least 10. |
| Ranking.PostProcessKeepsBest | js/tf-model.js:66-68 | Every returned entry is a candidate, and no candidate left out has a higher confidence than any returned entry. |
| Ranking.PostProcessTieOrder | js/tf-model.js:66-68 | Among returned entries of equal confidence, the lower index comes first. They are the first candidates with that confidence. |
| Detector.LayersModel.Dispose | js/tf-model.js:90 | Releasing the model handle marks it disposed. Releasing a handle that is already released fails with the runtime's "already disposed" error. |
| Detector.PlagueDetectionModel.constructor | js/tf-model.js:3-7 | A new wrapper has no model, an empty label table and the flag cleared. |
| Detector.PlagueDetectionModel.LoadModel | js/tf-model.js:9-34 | Returns true exactly when both awaited steps succeed, and sets the flag to the value it returns. The model handle is replaced once the model loads, and the labels once the label file is read. A failure leaves the flag false. |
| Detector.PlagueDetectionModel.Predict | js/tf-model.js:36-69 | Refuses with "Modelo no cargado" unless the flag is set, and passes a runtime error through. Otherwise it returns the post-processed top three. It changes no state. |
| Detector.PlagueDetectionModel.Dispose | js/tf-model.js:88-92 | Releases the model only when one is present. It never changes the handle, the labels or the flag. So a second call reaches the released handle and fails with its error. |
| Knowledge.PestNamed | js/app.js:165-174 | A name is a table key exactly when it is one of the eight pest names. |
| Knowledge.PestNamedRoundTrip | js/app.js:165-174 | Every pest is found under its own key. |
| Knowledge.ScientificName | js/app.js:164-176 | Returns the table entry for a listed pest. Returns "Nombre científico no disponible" exactly for the other names. |
| Knowledge.Description | js/app.js:178-190 | Returns the table entry for a listed pest, and the fixed default exactly for the other names. |
| Knowledge.Solutions | js/app.js:192-240 | Always returns three remedies: the table's list for a listed pest, the generic list for any other name. |
| Knowledge.Severity | js/app.js:242-254 | Only ever returns 'alta' or 'media': the table's entry for a listed pest, 'media' for any other name. |
| Knowledge.ScientificNameAsWritten | js/app.js:175 | As written, the lookup yields an inherited member exactly for an inherited key that is not a pest name. Any string it yields is the own-entry lookup's. |
| Knowledge.DescriptionAsWritten | js/app.js:189 | As written, the lookup yields an inherited member exactly for an inherited key that is not a pest name. Any string it yields is the own-entry lookup's. |
| Knowledge.SolutionsAsWritten | js/app.js:235 | As written, the lookup yields an inherited member exactly for an inherited key that is not a pest name. Any list it yields is the own-entry lookup's. |
| Knowledge.SeverityAsWritten | js/app.js:253 | As written, the lookup yields an inherited member exactly for an inherited key that is not a pest name. Any string it yields is the own-entry lookup's. |
| Knowledge.InheritedKeysBreakLookups | js/app.js:164-254 | For every key objects inherit, such as "toString", all four lookups as written yield the inherited member. The own-entry lookups yield their defaults. |
| Knowledge.LookupsAsWrittenAgree | js/app.js:164-254 | Away from the inherited keys, all four written lookups agree with the own-entry lookups. |
| App.Enriched | js/app.js:121-128 | A card carries its prediction's label and confidence, with the scientific name, description, remedies and severity the tables give that label: three remedies and a severity of 'alta' or 'media'. |
| App.Enrich | js/app.js:120-129 | One card per prediction, in order. Each card has the prediction's label and unchanged confidence, plus the scientific name, description, remedies and severity the tables give that label. |
| App.FallbackResults | js/app.js:138-151 | The example list holds one card, at 87% confidence. App.FallbackIsEnrichedExample states the rest of its content. |
| App.EnrichRoundTrip | js/app.js:120-129 | The predictions can be read back from the cards, so enrichment keeps length and order. |
| App.FallbackIsEnrichedExample | js/app.js:138-151 | The fallback card is exactly the enrichment of a "Gusano cogollero" prediction at 87%. |
| App.Analyze | js/app.js:99-162 | Loads the model only when it is not loaded, and then leaves the handle and labels as the load sets them. A failed load or a failed prediction shows the fallback example with the alert "Error en el análisis. …" plus the error message. Otherwise it shows the enriched predictions with no alert. The button is re-enabled on every path. |
| App.CardStyleFor | js/app.js:285-299 | 'alta' gives #ef4444 / "Alta" / red, 'media' gives #f59e0b / "Media" / yellow, and anything else gives #10b981 / "Baja" / green. |
| App.EnrichedNeverLow | js/app.js:285-291 | A card built from a prediction is never styled as low severity. |
| App.CropPest | js/app.js:343 | Every crop maps to a pest the tables list. maiz and only maiz gives "Gusano cogollero", and tomate and only tomate gives "Mosca blanca". |
| App.Describe | js/app.js:326-353 | Rejects an empty crop or blank symptoms with its alert, and only those. Otherwise it maps maiz to "Gusano cogollero", tomate to "Mosca blanca" and any other crop to "Pulgón". The scientific name agrees with the table, the confidence is 60 to 89, the severity is 'alta' exactly when the second draw exceeds 0.5, and the remedies are the handler's own list. |

## Left out

- DOM wiring is not modelled: tabs, drag and drop, the image preview, the
  spinner markup, the `innerHTML` templating of cards, the card animations,
  and the online/offline indicator. A handler's effect is the cards it
  shows, the alert it raises and the state of its button.
- Image preprocessing and inference (`tf.browser.fromPixels`, resizing,
  normalisation, `model.predict`, tensor disposal) are foreign library calls
  on floating point. The probability vector is an input.
- `tf.loadLayersModel` and the `fetch` of `labels.txt` are I/O. How they end
  is an input. A `fetch` that answers with an error page counts as fetched
  text, as it does in the code.
- `predictFromImageData` is asynchronous image decoding wrapped in a promise.
  It only forwards to `predict`.
- `Math.random` in the describe handler is a parameter. The `tf.ready`
  startup and the delayed background `loadModel` are timing, and neither
  changes the state machine beyond a `loadModel` call.
- Concurrency between a background load and a click is not modelled.
  Handlers run one at a time.
- IEEE 754 arithmetic is not modelled. `p*100` and `Math.round` are computed
  on reals with rounding half up, so a probability whose float product
  rounds differently is not captured.
- Strings are sequences of Unicode code points, not UTF-16 code units. This
  only matters for characters outside the Basic Multilingual Plane.
- The previous model handle that a reload overwrites without disposing it is
  not tracked. The model only keeps the current handle.
- Knowledge.ScientificName: reads the table's own entries only. The
  lookup as written is Knowledge.ScientificNameAsWritten (see Findings).
- Knowledge.Description: reads the table's own entries only. The lookup as
  written is Knowledge.DescriptionAsWritten (see Findings).
- Knowledge.Solutions: reads the table's own entries only. The lookup as
  written is Knowledge.SolutionsAsWritten (see Findings).
- Knowledge.Severity: reads the table's own entries only, so its "only
  'alta' or 'media'" holds for the corrected lookup. The lookup as written,
  Knowledge.SeverityAsWritten, yields an inherited member for an inherited
  key (see Findings).
- App.Enrich: builds cards with the own-entry lookups. For a label that is
  an inherited key, the code as written puts inherited members in the card.
- App.Enriched: builds one card with the own-entry lookups, so its
  'alta' or 'media' severity and its three remedies hold for those lookups.
  For a label that is an inherited key, the code as written puts inherited
  members in the card.
- App.EnrichedNeverLow: holds for cards built with the own-entry lookups.
  As written, for an inherited key line 285 of js/app.js computes the green
  style, but the card never appears: line 309 throws at
  `result.solutions.map` before the card is appended.
- App.Analyze: uses the own-entry lookups. For a label that is an inherited
  key, the code as written throws while drawing the cards
  (`result.solutions.map`), so it shows the example card with an alert where
  the model shows the cards.
- Detector.PlagueDetectionModel.Predict: the inference outcome is an input.
  After `dispose` the flag still passes the gate, and the runtime's failure
  on the released weights is only captured as an `InferenceFailed` input.
- App.Describe: the description text and button timing are not stated in
  the contract. The body builds the description "Posible … basado en los
  síntomas descritos." and keeps the source's spelling "dańo" and "mańana"
  (with U+0144).
- App.Analyze: the example card is the `ExampleCards` panel, whose content
  (`Shown`, as its fallback clauses state) is the literal example card. Its equality with the tables is
  stated once, by App.FallbackIsEnrichedExample, not in every contract.

## Findings

| source | as written | input that shows it | evidently intended | confidence | as-written member | corrected member |
|---|---|---|---|---|---|---|
| js/app.js:175 | `scientificNames[plagueName] \|\| '...'` reads the object literal's own keys and also the members it inherits from `Object.prototype`. | The label "toString" gets the function `Object.prototype.toString` as its scientific name. | An unlisted name gets "Nombre científico no disponible". | not executed; high (follows from the language semantics) | Knowledge.InheritedKeysBreakLookups | Knowledge.ScientificName |
| js/app.js:189 | `descriptions[plagueName] \|\| '...'` reads inherited members too. | The label "toString" gets a function as its description. | An unlisted name gets "Descripción no disponible para esta plaga.". | not executed; high (follows from the language semantics) | Knowledge.InheritedKeysBreakLookups | Knowledge.Description |
| js/app.js:235 | `solutions[plagueName] \|\| [...]` reads inherited members too. | A label line `"3: toString"` gives the label "toString". `obtenerSoluciones("toString")` then returns a function, so `result.solutions.map` throws while the card is drawn and the analyse handler falls back to the example card. | An unlisted name gets the generic three remedies. | not executed; high (follows from the language semantics) | Knowledge.InheritedKeysBreakLookups | Knowledge.Solutions |
| js/app.js:253 | `severityLevels[plagueName] \|\| 'media'` reads inherited members too. | The label "toString" gets a function as its severity, so line 285 computes the green "Baja" style. No such card appears, because the same key's remedies are a function too and line 309 throws at `result.solutions.map` before the card is appended. The handler then shows the example card and the alert. | An unlisted name gets 'media'. | not executed; high (follows from the language semantics) | Knowledge.InheritedKeysBreakLookups | Knowledge.Severity |
