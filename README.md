# Used-car price prediction: single-row feature reconstruction

This project models the one piece of logic in the prediction service of a
small used-car price estimator: how `predict_price` in `app.py` turns the form
inputs (brand, model name, year, mileage, fuel type, transmission, country,
average income, GDP per capita) into one feature row that matches the
training-time feature schema.

The function

1. seeds a dictionary with `model_year` (the year, truncated by `int`),
   `milage`, `income`, `gdpp`, and `price_vs_gdpp = 0`;
2. walks the stored feature names in order. Each name goes through an
   `if/elif` chain of prefix tests: `brand_`, `fuel_type_`, `transmission_`,
   `country_`, `model_`. A name that matches one of these becomes a one-hot
   indicator: 1.0 when it equals prefix + input, else 0.0. Any other name is
   set to 0.0, but only if it is not already a key;
3. selects the dictionary's values in feature-name order.

Module `Dispatch` (`dispatch.dfy`) holds the per-column decision:
`Classify` is the `elif` chain, `Indicator` is the 1.0/0.0 value, and
`Truncate` is Python's `int()` on a float.
Module `FeatureRow` (`feature_row.dfy`) holds the rest:

- `BuildFeatureRow` is the imperative loop over a `map<string, real>`.
- `Step` and `EncodeFrom` are the same loop as a function (one iteration, and
  the left-to-right run).
- `Reference` is an independent closed form that does not depend on loop order.
- `Select` is the projection `pd.DataFrame([d])[columns]`. It returns `None`
  where pandas would raise a `KeyError`.

The lemmas prove the properties below from the closed form:

- the projection is total (`Encode`, `Select`, `BuildFeatureRow`);
- indicators are exact and exclusive;
- unseen categories are zero-filled;
- the seeded keys survive, with one exception.

The exception: `model_year` starts with `model_`. When it is a feature name,
the loop overwrites the year with the model-name indicator. That indicator is
1.0 only for the model name `"year"` (`ModelYearOverwritten`).

All dictionary values are Dafny `real` (exact, not floating point). Python
stores `model_year` and `price_vs_gdpp` as ints and the rest as floats. The
model does not keep that distinction, which does not affect the row's values.

A name matching no prefix that is already a key keeps its value, which is how
`milage`, `income`, `gdpp` and `price_vs_gdpp` keep their seeded values
(`SeededKeySurvives`).

## Model

| member | source | states |
|---|---|---|
| `Dispatch.Classify` | app.py:28-39 | The branch taken is a family whose prefix the name starts with. No family tested earlier matches, so the first match wins. The fall-through branch is taken exactly when no prefix matches. |
| `Dispatch.Indicator` | app.py:29-37 | The value written to a one-hot column is always 0.0 or 1.0, and a column switched on carries its family's prefix. That it is 1.0 exactly on prefix + input is `IndicatorExact`. |
| `Dispatch.Truncate` | app.py:18 | `int(year)` truncates toward zero: the result is within 1 of the input, on the zero side. |
| `Dispatch.TargetClassified` | app.py:28-37 | Each family's target column (prefix + input) takes that family's own branch and no earlier one. |
| `FeatureRow.Seed` | app.py:17-23 | The dictionary literal has exactly the five keys `model_year`, `milage`, `income`, `gdpp`, `price_vs_gdpp`; their values after the loop are `SeededKeySurvives`, `NumericInputsKept` and `ModelYearOverwritten`. |
| `FeatureRow.Step` | app.py:28-39 | One iteration makes `col` a key and leaves every other key's value unchanged. |
| `FeatureRow.EncodeFrom` | app.py:26-39 | After the loop, the keys are the starting keys together with every feature name. |
| `FeatureRow.Encode` | app.py:17-39 | After seeding and the loop, the keys are exactly the five seeded keys plus the feature names, so every feature name is a key. |
| `FeatureRow.Select` | app.py:42 | The projection succeeds exactly when every selected name is a key. It then has one entry per name, in name order, each that name's value, so keys not among the names do not appear. |
| `FeatureRow.BuildFeatureRow` | app.py:15-42 | The seeding, the `elif` loop and the projection together give the dictionary of the loop run over the feature names in order. The row has exactly one entry per feature name, in order, and the projection does not fail. |
| `FeatureRow.EncodeIsReference` | app.py:26-39 | From any starting dictionary, the loop yields the closed form. A one-hot name gets its indicator. Any other key keeps its starting value. A fresh name gets 0.0. |
| `FeatureRow.IndicatorExact` | app.py:28-37 | A feature name of a one-hot family holds 1.0 exactly when it equals prefix + input. It holds 0.0 exactly when it does not. |
| `FeatureRow.AtMostOneHot` | app.py:28-37 | With distinct feature names, of any two different columns of the same family at least one is 0.0, so at most one column per family is 1.0. |
| `FeatureRow.UnseenCategoryZero` | app.py:28-37 | An input with no column in the schema leaves every column of its family at 0.0, without an error. |
| `FeatureRow.SeenCategoryHot` | app.py:28-37 | An input whose column is in the schema switches that column to 1.0. |
| `FeatureRow.SeedKeysClassified` | app.py:17-37 | Of the seeded keys, only `model_year` starts with a prefix (`model_`). `milage`, `income`, `gdpp` and `price_vs_gdpp` fall through. |
| `FeatureRow.SeededKeySurvives` | app.py:17-39 | A seeded key keeps its seeded value unless it is a feature name that starts with one of the five prefixes. |
| `FeatureRow.NumericInputsKept` | app.py:19-22 | Whatever the feature names, `milage`, `income` and `gdpp` hold their inputs after the loop, and `price_vs_gdpp` holds 0. |
| `FeatureRow.ModelYearOverwritten` | app.py:17-37 | If `model_year` is a feature name, it ends as the model-name indicator (1.0 only for model name `"year"`). Otherwise it holds the truncated year. |
| `FeatureRow.ZeroFillAndBinary` | app.py:27-39 | A feature name that matches no prefix and is not seeded is 0.0. Every feature name other than a non-prefixed seeded key is 0.0 or 1.0. |
| `FeatureRow.StepIndependentOfState` | app.py:28-37 | The value written to a one-hot column depends only on the name and the inputs, not on the dictionary built so far. |
| `FeatureRow.DuplicateNameNoEffect` | app.py:27-39 | Processing a feature name a second time changes nothing, so duplicate names get identical values. |
| `FeatureRow.OrderIrrelevant` | app.py:26-39 | Two feature lists with the same names give the same dictionary. Order matters only to the projected row. |

## Left out

- Loading the model and the feature-name list with `pickle.load` (app.py:8-9) is file I/O. The feature names are a parameter of `BuildFeatureRow`. That the training script writes the forest alone with `joblib.dump` (model_training.py:36-37, 47) is an integration gap between two files, not logic.
- `SimpleImputer` fit/transform (app.py:12, 43) and `model.predict` (app.py:45) are opaque scikit-learn calls.
- The currency formatting of the prediction (app.py:46) is floating-point library formatting.
- The `float()` coercions of the form inputs (app.py:19-21) are taken as the identity on `real`. `float(milage)`, `float(income)` and `float(gdpp)` pass NaN and ±infinity through unchanged into the dictionary and the row; a `real` cannot hold them, so those values are not modelled. `int(year)` raises on NaN (ValueError) and on ±infinity (OverflowError); that error path is not modelled either. Non-numeric inputs, on which both coercions raise, are left out too. `int(year)` on a finite number is `Truncate`.
- The categorical inputs are strings. Gradio passes `None` for an unselected dropdown, and the f-string then builds `"brand_None"`; here the caller supplies that text as the input.
- The gradio interface and `demo.launch()` (app.py:49-67) are UI and server plumbing.
- model_training.py (CSV reading, dummy encoding, train/test split, model fitting, metrics, saving) is a thin wrapper over pandas and scikit-learn with float numerics and is not part of this model.
- add_country.py (CSV read/write and unseeded `random.choice`) is I/O and nondeterminism and is not part of this model.
