# Telco churn app: feature encoder and verdict, in Dafny

The app is a one-page Streamlit script (`app.py`). It collects one customer's profile in a
form, recodes that profile into the 20 numbers a fitted scaler and classifier were trained on,
and turns the classifier's label into a red "likely to churn" or a green "likely to stay"
banner. This project models the recoding and the verdict and proves what they guarantee.

- `wrappers.dfy`, module `Wrappers`: `Option` and `Result`, with `Result` usable with `:-`.
- `encoder.dfy`, module `FeatureEncoder`: the pure specification of the encoder.
  - `RawProfile` is the form's answers.
  - The widgets' choice lists give the normal domain, `ValidProfile`.
  - `GenderCode`, `InternetFix` and `MultipleLinesCode` are the total recodings. So are the two
    derived flags, `NoInternetFlag` and `NoPhoneFlag`.
  - The four dictionaries are `Codes`, and `Lookup` is a subscript into one of them. A missing
    key is a `KeyError`, never a default.
  - `Encode` performs the six subscripts in script order, stopping at the first `KeyError`. It
    then assembles the vector, `Assemble`, in the column order `FeatureOrder`.
  - `Decode` reads a profile back from a vector. It is used to prove that the vector loses
    nothing for consistent form input.
- `preprocess.dfy`, module `Preprocessing`: `Preprocess`, the preprocessing block as the script
  runs it.
  - The block rebinds one local per script name, statement by statement. Each name first holds
    a display string and later an integer, through the `Value` datatype.
  - The derived flags read `InternetService` and `MultipleLines` before those names are
    overwritten.
  - `Preprocess` is proved to return exactly `Encode(p)`.
- `inference.dfy`, module `InferenceAdapter`: `VerdictFor` maps a label to a banner.
  - `Predict` composes `Encode` with the scaler and the classifier. Both are passed in as
    functions, and nothing is assumed about them.

Four behaviours of the script beyond its widgets' choice lists, which the model keeps:

- Gender, the six add-ons and MultipleLines never fail. Any string is recoded by an if/else or
  a list-membership test: an unknown gender gives 0, and an unknown add-on answer gives 1.
  Only the six dictionary subscripts (Partner, Dependents, PaperlessBilling, InternetService,
  Contract, PaymentMethod) can raise.
- `internet_fix` gives 1 for every string other than the two "No" answers, not only for "Yes".
- Any label other than 1 gives the "likely to stay" verdict, not only the label 0.
- A `KeyError` stops the script at the first missing key, in the order of lines 180–214, so the
  error names that key.

## Model

| member | source | states |
|---|---|---|
| Preprocessing.Preprocess | app.py:175-238 | The statement-by-statement rebinding of the script's names returns exactly what `Encode` specifies: the same `KeyError` for the same first missing key, and otherwise the same 20 numbers. This holds although the derived flags are computed between the add-on recodes and the last three subscripts. |
| Preprocessing.Subscript | app.py:180-214 | A subscript on a name that still holds a display string succeeds exactly when the string is a key of the table. It then rebinds the name to the key's integer code; otherwise it raises `KeyError(table, key)`. |
| FeatureEncoder.GenderCodeIsMaleFlag | app.py:176 | Gender encodes to 0 or 1, and to 1 exactly when the answer is "Male"; "Female" encodes to 0. |
| FeatureEncoder.InternetFixCollapsesOffAnswers | app.py:185-186 | `internet_fix` is 0 exactly for "No" and "No internet service", and 1 for "Yes" and for every other string. |
| FeatureEncoder.MultipleLinesCodeIsTotal | app.py:200 | MultipleLines recodes to 0 or 1, and to 1 exactly for strings other than "No" and "No phone service". |
| FeatureEncoder.DerivedFlagsAreIndicators | app.py:196-197 | NoInternetService is a 0/1 flag that is 1 exactly for "No". NoPhoneService is a 0/1 flag that is 1 exactly for "No phone service". |
| FeatureEncoder.BinaryMapCodes | app.py:179-182 | `binary_map` sends "Yes" to 1 and "No" to 0, and every other key raises; a successful code is in {0, 1}. |
| FeatureEncoder.InternetMapCodes | app.py:203 | `internet_map` sends DSL to 0, Fiber optic to 1 and No to 2; any key outside the widget's three options raises. |
| FeatureEncoder.ContractMapCodes | app.py:204 | `contract_map` sends Month-to-month to 0, One year to 1 and Two year to 2; any other key raises. |
| FeatureEncoder.PaymentMapCodes | app.py:205-210 | `payment_map` sends the four payment methods to 0, 1, 2 and 3 in the widget's order; any other key raises. |
| FeatureEncoder.NoKeyErrorIffAllKnown | app.py:180-214 | Running a sequence of subscripts raises nothing exactly when every key is in its table. |
| FeatureEncoder.KeyErrorIsFirstMissing | app.py:180-214 | When a key is missing and every earlier key was found, the error raised is that key's `KeyError`. |
| FeatureEncoder.FeatureOrderIsComplete | app.py:217-238 | The column order has 20 entries and lists every column exactly once. |
| FeatureEncoder.Index | app.py:217-238 | Every column has a slot inside the 20-slot vector; `IndexNamesColumn` proves that slot is the column's position in `FeatureOrder`. |
| FeatureEncoder.Assemble | app.py:217-238 | The assembled vector has exactly one value per column. |
| FeatureEncoder.EncodeRaisesFirstKeyError | app.py:180-214 | The encoder succeeds exactly when no subscript raises, that is, exactly when all six keys are in their tables. On failure, its error is the `KeyError` of the first missing key in script order. |
| FeatureEncoder.EncodedVector | app.py:217-238 | A successful encoding is the assembled 20-slot vector. |
| FeatureEncoder.ValidProfileEncodes | app.py:86-171 | Every profile the form's widgets can produce encodes without a `KeyError`. |
| FeatureEncoder.GenderSlot | app.py:176 | Slot 0 holds 1 for "Male" and 0 otherwise. |
| FeatureEncoder.NumbersPassThrough | app.py:217-238 | SeniorCitizen, tenure, MonthlyCharges and TotalCharges are copied unchanged into slots 1, 4, 16 and 17. |
| FeatureEncoder.BinarySlots | app.py:179-182 | The Partner, Dependents and PaperlessBilling slots hold 1 for "Yes" and 0 for "No". |
| FeatureEncoder.AddOnSlots | app.py:188-193 | Each of the six add-on slots (7 to 12) holds 0 for both "off" answers and 1 otherwise, the same rule for all six. |
| FeatureEncoder.NoInternetServiceSlot | app.py:196 | Slot 18 holds 1 exactly when the raw InternetService was "No". That is exactly when the InternetService slot holds 2. |
| FeatureEncoder.NoPhoneServiceSlot | app.py:197-200 | Slot 19 holds 1 exactly when the raw MultipleLines was "No phone service", and then the MultipleLines slot holds 0. The MultipleLines slot holds 0 for both "No" and "No phone service", and 1 for every other answer. |
| FeatureEncoder.CategoricalSlots | app.py:212-214 | The InternetService, Contract and PaymentMethod slots hold exactly the code their table gives the raw answer. |
| FeatureEncoder.NoPhoneServiceNeedsRawAnswer | app.py:196-200 | "No" and "No phone service" give the same recoded MultipleLines slot but different NoPhoneService flags. So the flag must be read before line 200 overwrites the answer. |
| FeatureEncoder.DecodeEncode | app.py:175-238 | For any form profile whose add-ons say "No internet service" exactly when InternetService is "No", decoding the vector gives the profile back. |
| FeatureEncoder.EncodeInjective | app.py:175-238 | Two such profiles with the same vector are equal. |
| FeatureEncoder.EncodeDslCustomer | app.py:175-238 | A DSL customer on a monthly contract gets the vector worked out by hand. |
| FeatureEncoder.EncodeNoServiceCustomer | app.py:175-238 | A customer with neither phone nor internet service gets both flags set, every add-on 0 and InternetService 2. |
| FeatureEncoder.UnknownContractFails | app.py:213 | An unknown contract raises a `KeyError` on the contract table. |
| InferenceAdapter.VerdictFor | app.py:249-252 | The label 1, and only 1, gives the red "likely to churn" banner. Every other label gives the green "likely to stay" banner. |
| InferenceAdapter.Predict | app.py:240-252 | A run produces a verdict exactly when all six keys are known, and otherwise the first missing key's `KeyError`. The verdict is the one `VerdictFor` gives the classifier's label on the scaled 20-slot vector: "likely to churn" exactly when that label is 1, "likely to stay" otherwise. |
| InferenceAdapter.FormProfilesGetAVerdict | app.py:240-252 | Every profile the form can produce reaches the classifier. Its verdict is the one for the classifier's label on the scaled assembled vector. |
| InferenceAdapter.SameVectorSameVerdict | app.py:240-252 | Profiles with the same vector get the same verdict, whatever the scaler and the classifier are. |

## Left out

- The Streamlit page is not modelled: page setup, CSS, layout and the widgets themselves (app.py:16-171, 243-246, 254). The widgets appear only as the domain `ValidProfile`.
- The predict button is not modelled (app.py:246). `Predict` is the run in which the button was pressed.
- Loading the model and the scaler with `pickle` is not modelled (app.py:7-11); it is file I/O and foreign deserialisation.
- `scaler.transform` and `model.predict` (app.py:240, 247) are fitted-model library calls. They are function parameters of `Predict` with no properties assumed.
- Wrapping the vector in a 1-by-20 `np.array` and taking `[0]` of the prediction are not modelled. The vector is a flat sequence of 20 reals, and the label is one integer.
- Float64 rounding is not modelled: numbers are exact reals. Integer codes and counts are exact in float64, but charges are rounded there and not here.
- The Python type of `SeniorCitizen` and `tenure` is not modelled: they are taken as integers, as the widgets produce them.
