# HIV-1 protease binding predictor — decision logic in Dafny

This project models the logic of the Streamlit tool in `src/app.py`. The tool
takes a PubChem compound identifier (CID) and fetches four descriptors:
molecular weight, XLogP, hydrogen-bond donor count and hydrogen-bond acceptor
count. It feeds them in a fixed order through a pre-trained scaler and a
regression model to predict the binding free energy ΔG against HIV-1 protease.
It then reports three things: a binding-strength band, a Lipinski Rule-of-Five
drug-likeness assessment, and an overall candidate recommendation.

Modules (one per concern of `src/app.py`):

- `Wrappers`: the `Result` type. Each exception the model covers becomes a
  `Failure`: a failed lookup, an empty properties list, a null descriptor,
  or an empty prediction.
- `Text`: Python's `str.strip()` and the blank-identifier test applied to the
  CID field.
- `Properties`: the `LigandProperties` record, and how `get_ligand_properties`
  builds it from the decoded JSON. It takes the first entry of the list, reads
  each field or defaults it to 0, and applies the `float()` / `int()`
  conversions, including the truncation `int()` applies to a float.
- `Predictor`: the feature row `[MW, LogP, HBD, HBA]` and `predict_affinity`.
  The scaler and the model are function parameters, so every statement holds
  for any artifacts.
- `Lipinski`: the four inclusive thresholds (500, 5, 5, 10), the ✅/❌ status
  lines, the violation counter and `is_drug_like`.
- `Binding`: the ΔG bands with strict cutpoints at −9 and −7, and the
  first-match recommendation.
- `Pipeline`: one press of the predict button, from the raw text field to the
  outcome the page displays. The HTTP lookup is a parameter.

Where the code and the surrounding documentation differ, the model follows the code:

- The legend at `src/app.py:208-211` gives the bands as "ΔG < -7" (Moderate)
  and "ΔG > -7" (Weak), which leaves ΔG = −7 out of every band. The branch at
  `src/app.py:145-150` puts ΔG = −7 in Weak, and the model follows the branch.
- Donor and acceptor counts are `int`, because `int()` at `src/app.py:40-41`
  keeps a negative value and nothing in the code clamps it.
- A malformed JSON body is part of the `lookup` parameter. In current `requests`,
  the error raised by `response.json()` is a `RequestException`. The code
  therefore reports it with the "PubChem API error" prefix (`ApiError`), not
  the generic "Error" prefix.

## Model

| member | source | states |
|---|---|---|
| Text.Strip | src/app.py:102 | the stripped CID is the infix from the first to the last non-whitespace character; only whitespace is dropped at either end; it is empty exactly when the input is all whitespace |
| Text.StripIdempotent | src/app.py:102 | stripping an already stripped identifier changes nothing |
| Text.StripFixedPoints | src/app.py:102 | `strip()` leaves a string unchanged iff it is empty or both of its ends are non-whitespace |
| Properties.Truncate | src/app.py:40-41 | `int()` on a float truncates toward zero: the result is within one of the value, on the zero side |
| Properties.Project | src/app.py:37-43 | extraction succeeds iff no descriptor is present as null; each present field gives its value (counts truncated) and each absent field gives 0; a null field is an "Error" (non-API) failure whose detail is the TypeError text of the first null field in conversion order (`float()` for MW and LogP, `int()` for the counts) |
| Properties.FirstRecord | src/app.py:35-43 | extraction from the properties list succeeds iff the list is non-empty and its first record has no null descriptor; every failure is a non-API "Error" (an empty list gives the IndexError text); on success each field is the first record's value, or 0 when its key is absent |
| Properties.GetLigandProperties | src/app.py:28-48 | the fetch succeeds iff the lookup succeeds with a non-empty list whose first record has no null descriptor; a lookup error is returned as is; any failure after a successful lookup is a non-API "Error"; on success each field is the first record's value, or 0 when its key is absent |
| Properties.ProjectRecord | src/app.py:37-41 | projecting a record that holds all four descriptors of a ligand as numbers recovers that ligand exactly |
| Properties.ProjectEmptyRecord | src/app.py:38-41 | a record with none of the four keys defaults to all-zero properties |
| Properties.ProjectIgnoresOtherKeys | src/app.py:38-41 | keys other than the four property names do not change the extraction |
| Properties.OnlyFirstRecordConsulted | src/app.py:35 | lists that agree on their first record give the same properties |
| Predictor.FeatureVector | src/app.py:55 | the feature row has length 4, its count columns are integral, and it reads back into the same ligand, so no descriptor is lost or altered |
| Predictor.FeatureVectorInjective | src/app.py:55 | two ligands give the same feature row iff they are equal |
| Predictor.PredictAffinity | src/app.py:55-58 | the prediction is the first output of the model applied to the scaled one-row batch of the feature row; an empty model output is a failure |
| Predictor.FeatureOrder | src/app.py:55-57 | columns 0..3 of the row reaching the scaler and model are MW, LogP, HBD, HBA in that order |
| Lipinski.ViolationCount | src/app.py:162-174 | the count is at most 4; it is 0 iff no rule is violated and 4 iff every rule is |
| Lipinski.RuleStatus | src/app.py:163-173 | there is one status line per rule, in rule order, and a line is ✅ iff that rule's `<=` test holds |
| Lipinski.ViolationsMatchStatus | src/app.py:162-174 | each rule's `<=` status test fails iff its `>` counter test fires, so the counter equals the number of ❌ lines |
| Lipinski.IsDrugLike | src/app.py:184 | a compound is drug-like iff no two distinct rules are both violated |
| Lipinski.ThresholdsInclusive | src/app.py:164-174 | MW = 500, LogP = 5, HBD = 5 and HBA = 10 are not violations; a violation is exactly a value strictly above its limit |
| Lipinski.ViolationsMonotone | src/app.py:162-184 | raising any descriptor never removes a violation; a compound above a non-drug-like one is not drug-like either |
| Lipinski.Assess | src/app.py:162-189 | the assessment's count lies in [0, 4], equals the number of ❌ lines, and drug-likeness holds iff the count is at most 1 |
| Binding.BindingStrength | src/app.py:142-150 | the bands partition ΔG: Strong iff ΔG < −9, Moderate iff −9 ≤ ΔG < −7, Weak iff ΔG ≥ −7 |
| Binding.Recommend | src/app.py:193-201 | Excellent iff ΔG < −9 and drug-like; Promising iff ΔG < −9 and not drug-like; Moderate Candidate iff −9 ≤ ΔG < −7 and drug-like; Poor in every other case |
| Binding.RecommendationFactorsThroughStrength | src/app.py:142-201 | the recommendation is determined by the strength band and drug-likeness alone |
| Binding.RecommendationConsistentWithStrength | src/app.py:142-201 | Excellent or Promising implies Strong; Moderate Candidate implies Moderate; Weak always gives Poor; a non-drug-like compound is never Excellent or Moderate Candidate |
| Binding.StrengthMonotone | src/app.py:142-150 | a more negative ΔG never gives a weaker band |
| Pipeline.HandleRequest | src/app.py:102-201 | a blank CID gives the missing-CID warning and nothing else does; a fetch failure is reported with its own error; a successful fetch followed by an empty prediction is a prediction failure; a successful fetch and prediction always yield a report; a shown report holds the fetched properties and the model's ΔG, and its count, drug-likeness, band and recommendation agree with each other |
| Pipeline.FetchFailureSkipsPrediction | src/app.py:120-124 | after a failed fetch (failed lookup, empty list or null descriptor) the outcome is that fetch error, whatever the scaler and model are |
| Pipeline.WhitespaceInsensitive | src/app.py:102-120 | surrounding whitespace in the typed CID does not change the outcome |
| Pipeline.ScenarioStrongNotDrugLike | src/app.py:142-201 | MW 628.8, LogP 5.92, HBD 2, HBA 5 with ΔG −10.2 gives 2 violations, Strong Binding and Promising |
| Pipeline.ScenarioStrongDrugLike | src/app.py:142-201 | MW 300, LogP 2, HBD 1, HBA 4 with ΔG −9.5 gives 0 violations, Strong Binding and Excellent |

## Left out

- The PubChem HTTP request and everything up to the decoded properties list
  (`src/app.py:29-35`): the URL, the 10-second timeout, `raise_for_status`,
  JSON decoding, and the `PropertyTable` / `Properties` key lookups. The
  `[0]` on line 35 is modelled, by `FirstRecord`. This is
  network I/O. It is the `lookup` parameter of `GetLigandProperties`, which
  returns the list or an already-classified `FetchError`.
- The error-message strings `"PubChem API error: …"` and `"Error: …"`
  (`src/app.py:46-48`, `123`). This is rendering. The model keeps only the
  error kind and the Python exception's detail text.
- Property values given as JSON strings: `float("628.8")` parses text, and the
  model has no decimal parser. A decoded value is an integer, a real or null.
- Python `float` (IEEE 754) behaviour: rounding, NaN, infinities and overflow
  of a huge integer. Descriptors and ΔG are mathematical reals.
- Loading `rf_model.pkl` and `scaler.pkl`, and the missing-file path
  (`src/app.py:83-90`). This is file I/O on opaque artifacts.
- The internals of `scaler.transform` and `model.predict`. These are foreign
  library objects, so they are arbitrary function parameters. An exception
  raised inside them is not modelled; only an empty prediction list is
  (`PredictionFailed`).
- The button press, columns, metrics, colours, HTML, balloons, pluralisation,
  the example-CID list, the static legend and the performance text
  (`src/app.py:62-101`, `103-113`, `117-119`, `123-136`, `138-141`,
  `151-161`, `175-183`, `185-192`, `203-229`). These are presentation only.
