# Customer churn form: feature encoder and verdict

This project models the deterministic core of a single-page customer-churn
predictor. A telecom customer's form answers are turned into a fixed-order
vector of 26 numbers, the exact column layout on which a pre-fitted scaler and
a trained neural-network classifier were built. The classifier's churn
probability is then read as a verdict: "likely to churn" only when it is
strictly above 0.5.

Modules:

- `Customer` (customer.dfy): the answer domains as enumerated types, each with
  the exact label its select box shows; the option lists of the boxes; the
  `Profile` record; the bounds of the number inputs (`WithinWidgetBounds`);
  and the `binary_map` table, kept as a `map<string, int>` keyed on labels.
- `Vectors` (vectors.dfy): 0/1 entries, one-hot groups (`OneAt`, `IsOneHot`)
  and sums of real vectors.
- `FeatureEncoder` (encoder.dfy): `Encode`, one list literal like the form
  script's, the position of every column, and the layout lemmas.
- `FeatureDecoder` (decoder.dfy): `Decode`, a left inverse of `Encode`
  (`DecodeEncode`) whose domain is exactly the image of `Encode`
  (`DecodableIffEncoded`). So the layout loses nothing, and no two forms
  share a vector (`EncodeInjective`).
- `ChurnVerdict` (verdict.dfy): the 0.5 cut-off.
- `Wrappers` (wrappers.dfy): `Option`.

Modelling choices:

- The form script compares the selected strings with literals
  (`InternetService == "DSL"`) and looks labels up in `binary_map`. Here an
  answer is an enumerated value. `Encode` compares enumerated values and uses
  `YesNoBit`/`GenderBit`. The domain lemmas (`YesNoDomain` … `PaymentDomain`)
  prove that each type's labels are exactly its box's options, each once, and
  that distinct answers have distinct labels. So comparing answers is the
  same as comparing the strings. `BinaryMapLookup` proves that every
  answer's label is a key of `binary_map` and that the value found is the
  bit `Encode` uses.
- The script builds a list of Python ints and floats, and numpy turns it into
  float64. Every column is a `real` here. The charges and the probability are
  only copied or compared, never computed with.
- Senior citizen and tenure are `int`s, and the charges are `real`s. The
  encoder copies them whatever their value. The bounds of the number inputs
  (senior citizen in [0, 1], tenure and charges at least 0) are the predicate
  `WithinWidgetBounds`. Only the range lemma `EncodeRanges` requires it.
- The code has no invalid-attribute check. An unknown Yes/No or gender string would raise a lookup error from
  `binary_map`, and an unknown categorical string would silently give an
  all-zero one-hot group. The model follows the code. Because answers are
  enumerated types, neither case can arise, and `BinaryMapLookup` proves that
  the lookups cannot fail.

## Model

| member | source | states |
|---|---|---|
| `Customer.BinaryMapLookup` | streamlit_app.py:46 | every Yes/No and gender label is a key of `binary_map`, and the value found is Yes→1, No→0, Male→0, Female→1 |
| `Customer.YesNoDomain` | streamlit_app.py:24-34 | the Yes/No type is exactly the options "No", "Yes" of the Yes/No boxes, with distinct labels |
| `Customer.GenderDomain` | streamlit_app.py:23 | the gender type is exactly the options "Male", "Female", with distinct labels |
| `Customer.InternetDomain` | streamlit_app.py:36 | the internet-service type is exactly the options "DSL", "Fiber optic", "No", with distinct labels |
| `Customer.ContractDomain` | streamlit_app.py:37 | the contract type is exactly the options "Month-to-month", "One year", "Two year", with distinct labels |
| `Customer.PaymentDomain` | streamlit_app.py:38-43 | the payment-method type is exactly the four payment options, with distinct labels |
| `FeatureEncoder.Encode` | streamlit_app.py:48-81 | the feature vector of a form always has exactly 26 entries |
| `FeatureEncoder.EncodeGender` | streamlit_app.py:46-49 | column 0 is 0 exactly for Male and 1 exactly for Female |
| `FeatureEncoder.EncodeYesNoAnswers` | streamlit_app.py:51-62 | columns 2, 3 and 5-13 hold partner, dependents, phone service, multiple lines, online security, online backup, device protection, tech support, streaming TV, streaming movies and paperless billing, each 1 for Yes and 0 for No |
| `FeatureEncoder.EncodePassThrough` | streamlit_app.py:50-64 | senior citizen (column 1), tenure (4), monthly charges (14) and total charges (15) are copied unchanged |
| `FeatureEncoder.EncodeInternetOneHot` | streamlit_app.py:66-69 | columns 16-18 are one-hot, and the 1 sits at position k exactly when the k-th option of the list DSL, Fiber optic, No is the selected one |
| `FeatureEncoder.EncodeContractOneHot` | streamlit_app.py:71-74 | columns 19-21 are one-hot, and the 1 sits at position k exactly when the k-th option of the list Month-to-month, One year, Two year is the selected one |
| `FeatureEncoder.EncodePaymentOneHot` | streamlit_app.py:76-80 | columns 22-25 are one-hot, and the 1 sits at position k exactly when the k-th option of the list Bank transfer, Credit card, Electronic check, Mailed check is the selected one |
| `FeatureEncoder.EncodeOneHotTailSum` | streamlit_app.py:66-80 | the last ten columns always sum to exactly 3 |
| `FeatureEncoder.EncodeRanges` | streamlit_app.py:18-81 | within the input bounds, every column is non-negative and every column other than tenure and the two charges is 0 or 1 |
| `FeatureEncoder.EncodeExample` | streamlit_app.py:48-81 | a female fiber-optic customer on a monthly contract paying by electronic check encodes to the expected 26 numbers |
| `FeatureDecoder.DecodeEncode` | streamlit_app.py:48-81 | every form is recovered from its feature vector |
| `FeatureDecoder.EncodeDecode` | streamlit_app.py:48-81 | a vector that decodes is exactly the vector of the form it decodes to |
| `FeatureDecoder.EncodeInjective` | streamlit_app.py:48-81 | two forms with the same feature vector are the same form |
| `FeatureDecoder.DecodableIffEncoded` | streamlit_app.py:48-81 | a vector decodes if and only if some form encodes to it |
| `FeatureDecoder.HeadColumnsDecode` | streamlit_app.py:49-64 | the first 16 columns of a decodable vector are those of the form it decodes to |
| `FeatureDecoder.InternetColumns` | streamlit_app.py:67-69 | the internet group of a form's vector is read back as its answer, and it is the only group read back as that answer |
| `FeatureDecoder.ContractColumns` | streamlit_app.py:72-74 | the contract group of a form's vector is read back as its answer, and it is the only group read back as that answer |
| `FeatureDecoder.PaymentColumns` | streamlit_app.py:77-80 | the payment group of a form's vector is read back as its answer, and it is the only group read back as that answer |
| `ChurnVerdict.Decide` | streamlit_app.py:90-93 | the verdict is "likely to churn" if and only if the probability is strictly above 0.5, and "likely to stay" otherwise |
| `ChurnVerdict.DecideAtThreshold` | streamlit_app.py:90-93 | a probability of exactly 0.5 gives "likely to stay" |
| `ChurnVerdict.DecideMonotone` | streamlit_app.py:90-93 | raising the probability never turns a churn verdict into a stay verdict |

## Left out

- Page setup, input widgets, layout, the predict button and message rendering
  are user-interface plumbing. Only the widgets' value domains are kept: as
  enumerated types, and as `WithinWidgetBounds` for the number inputs.
- Loading the saved classifier and scaler is file input of opaque serialized
  objects.
- Reshaping to one row, the scaler's transform and the classifier's
  prediction are floating-point calls into external libraries. The
  probability is a `real` input to `ChurnVerdict.Decide`.
- Formatting the probability as a percentage with two decimals is
  float-to-string formatting.
- The exception handler around inference only guards those external calls.
- Float64 rounding of the charges is not modelled. They are copied as
  `real`s, and nothing is computed with them.
