# Case-records API and dashboard helpers, modelled in Dafny

This project models the record-handling layer of a small case-records
service. The service is a Flask API over a MongoDB collection of criminal
cases. Each case has a date, a type, a neighbourhood and an embedded
victim with sex, ethnicity and age. A trained classifier predicts the type
of a case. A browser dashboard charts the cases.

The model covers:

- **Query builders.** The three copies of the query builder turn request
  parameters into a store query.
  - `listar_casos` tests whether a parameter is present.
  - `obter_acuracia` and `distribuicao_tipo_caso` test whether its value is
    truthy.
  - `Query.Matches` states the store's semantics for the query:
    - exact equality on `vitima.sexo` and `vitima.etnia`;
    - an inclusive integer range on `vitima.idade`;
    - an inclusive binary string range on `data_do_caso`.
- **Case validator and POST handler.** `validar_caso_json` and the POST
  handler, which inserts only valid bodies. The collection is a class whose
  document list the handlers update.
- **Projections.**
  - Neighbourhood coordinate points.
  - The victim age list, including the store's inclusion projection.
  - The (sexo, idade, tipo_do_caso) records.
- **Per-class accuracy.** The classifier and the fitted label encoder are
  inputs.
- **Count per case type.**
- **Age-bracket inputs** for the classifier. The classifier's probabilities
  are an input function.
- **Dashboard helpers.**
  - `contarOcorrencias`: counting by a dotted key path.
  - `filtrarPorData`: the date-window filter.
  - The age histogram.

Documents are loosely typed JSON values (`Json.Json`). Python and
JavaScript truthiness, dict lookups and the exceptions that values of the
wrong shape raise are modelled explicitly. Each endpoint's answer is a
`Result` that is either the response body or the fault that ends the
request.

Loops in the source are methods proved against a specification function
(`ensures r == Spec(...)`). The lemmas and the functions' own contracts then
state what that function means.

Four behaviours of the code are worth stating up front, and the model
follows them:

- **Age brackets.** `probabilidade_por_idade` always answers five
  brackets. It feeds the classifier one synthetic input at each bracket's
  midpoint. It does not average the stored records per bracket, and it
  does not omit empty brackets.
- **Sex and ethnicity filters.** These match exactly, not
  case-insensitively.
- **Accuracy when every row is dropped.** Suppose the filter selects
  cases but every row loses a cell to `dropna()`. Then the accuracy
  endpoint fails, because the classifier is asked to predict zero rows.
  It does not answer "no data".
- **Integer parse errors.** A malformed age bound in
  `distribuicao_tipo_caso` raises outside any `try` block, so the endpoint
  fails.

## Model

| member | source | states |
|---|---|---|
| Json.VictimGet | backend/app.py:168-169 | `d.get("vitima", {}).get(key)` raises an AttributeError exactly when the victim is present and not a dict (such a value has no `.get`); otherwise it is the victim's value under key, or None when either level lacks the key |
| Text.IntToString | backend/app.py:258 | the decimal numeral of an integer is non-empty and ends in a digit |
| Text.ParsePyInt | backend/app.py:118 | `int()` on a str: surrounding whitespace stripped, an optional sign, then decimal digits with single underscores between them, at most 4300 digits; anything else is None (ValueError). What it means is stated by `StripMeaning`, `NoDigitNoInt`, `ParseNumeral` and `ParseIntRoundTrip` |
| Text.StripMeaning | backend/app.py:118 | the whitespace stripping before `int()` only removes characters and leaves no whitespace at either end |
| Text.NoDigitNoInt | backend/app.py:118 | `int()` of a string with no digit raises |
| Text.LeadingJunkNoInt | backend/app.py:118 | `int()` raises on a string that starts with a character other than stripped whitespace, a sign or a digit, such as the control character U+001C |
| Text.ParseNumeral | backend/app.py:118 | `int()` of a run of digits, with or without a leading '-', is its value when it has at most 4300 digits and a ValueError when it has more |
| Text.ParseIntRoundTrip | backend/app.py:118 | `int(str(n)) == n` for every integer n of at most 4300 digits, and `int()` refuses the numeral of any longer one |
| Text.RangeLabelReads | frontend/script.js:219 | the label `"lo-hi"` is two plain decimal numerals around its first '-', reading lo and hi |
| Text.RangeLabelParses | backend/app.py:258 | for bounds whose numerals `str()` can print, the label `"lo-hi"` splits at its first '-' into two numerals that `int()` parses back to lo and hi |
| Text.IsIsoDateTime | backend/app.py:79 | the strings `datetime.fromisoformat` accepts in the model: a valid calendar date `YYYY-MM-DD` with year ≥ 1, alone or followed by one separator and `HH:MM` or `HH:MM:SS` |
| Aggregates.FilterMap | backend/app.py:93-98 | a list built by appending the kept projections is no longer than its input |
| Aggregates.FilterMapSound | backend/app.py:93-98 | every element of the list is the projection of some input element |
| Aggregates.FilterMapStep | backend/app.py:93-98 | one more input element appends its projection, if it has one, at the end: the step of the appending loop |
| Aggregates.FilterMapAppend | backend/app.py:93-98 | keeping commutes with concatenation, so the input order is preserved |
| Aggregates.FilterMapComplete | backend/app.py:93-98 | every input element that qualifies contributes its projection |
| Aggregates.FilterMapLength | backend/app.py:93-98 | the output length is the number of qualifying inputs |
| Aggregates.Bump | backend/app.py:393 | `m[k] = m.get(k, 0) + 1` adds k, raises its count by one and leaves every other count alone |
| Aggregates.TallyStep | backend/app.py:389-393 | one more value counted bumps exactly its own count: the step of the counting loop |
| Aggregates.TallyCounts | backend/app.py:389-393 | the counts built by the loop have exactly the counted values as keys, each mapped to its number of occurrences |
| Aggregates.TallyTotal | backend/app.py:389-393 | the counts sum to the number of values counted |
| Aggregates.TotalBump | backend/app.py:393 | one increment raises the sum of the counts by one |
| Aggregates.TotalRemove | backend/app.py:389-393 | the sum of the counts does not depend on the order keys are taken out |
| Query.Find | backend/app.py:132 | the store returns exactly the matching documents, and never more than it holds |
| Query.Matches | backend/app.py:131 | the store's matching for the built query: exact equality on `vitima.sexo` and `vitima.etnia`, an inclusive numeric range on `vitima.idade`, an inclusive string range on `data_do_caso`, all entries conjoined; its consequences are stated by `Find`, `FilteredMeetsArgs` and `ListedMeetsArgs` |
| Query.FindAll | backend/app.py:104-112 | the empty query returns the whole collection, in order |
| Query.FindEmpty | backend/app.py:323-325 | the query returns nothing exactly when no document matches |
| Query.FoundAgeInRange | backend/app.py:115-121 | every document returned under both age bounds has an integer age with min ≤ idade ≤ max |
| Query.PresentBound | backend/app.py:117-120 | a present age bound is its `int()` value, or an error when `int()` rejects it; an absent one imposes nothing |
| Query.PresentEquality | backend/app.py:105-110 | `vitima.sexo`/`vitima.etnia` is constrained exactly when the parameter is present and not "todos", to its value |
| Query.PresentAgeBounds | backend/app.py:114-121 | the age entry exists exactly when idadeMin or idadeMax is present, with `$gte`/`$lte` exactly for the present ones holding their int() values; a malformed one is an error |
| Query.BuildPresentAgeBounds | backend/app.py:116-120 | building `idade_query` key by key fails on the first malformed bound, idadeMin first, and otherwise holds both parsed bounds |
| Query.PresentDateBounds | backend/app.py:123-129 | the date entry exists exactly when dataInicio or dataFim is present, with one operator per present parameter |
| Query.ListQuery | backend/app.py:104-130 | presence semantics: `sexo`/`etnia` constrain exactly when present and not "todos"; `$gte`/`$lte` on the age exactly when idadeMin/idadeMax are present, holding their int() values; date bounds are copied unchanged; a malformed bound is an error; no filter gives the match-all query |
| Query.BuildListQuery | backend/app.py:104-130 | the field-by-field construction of the query dict builds exactly `ListQuery` |
| Query.GivenBound | backend/app.py:305-308 | a truthy age bound is its `int()` value, or an error when `int()` rejects it; an absent or empty one imposes nothing |
| Query.GivenEquality | backend/app.py:293-299 | `vitima.sexo`/`vitima.etnia` is constrained exactly when the parameter is truthy and not "todos", to its value |
| Query.GivenAgeBounds | backend/app.py:302-310 | the age entry exists exactly when idadeMin or idadeMax is truthy, with `$gte`/`$lte` exactly for the truthy ones holding their int() values; a malformed one is an error |
| Query.BuildGivenAgeBounds | backend/app.py:302-308 | building `idade_query` from the truthy bounds fails on the first malformed bound, idadeMin first, and otherwise holds both parsed bounds |
| Query.GivenDateBounds | backend/app.py:313-321 | the date entry exists exactly when dataInicio or dataFim is truthy, with one operator per truthy parameter |
| Query.FilterQuery | backend/app.py:290-321 | truthy semantics: `sexo`/`etnia` constrain exactly when truthy and not "todos", to their values; `$gte`/`$lte` on the age exactly when idadeMin/idadeMax are truthy, holding their int() values; date bounds exactly when truthy, unchanged; empty values are ignored; a malformed age bound is an error; no filter gives the match-all query |
| Query.BuildFilterQuery | backend/app.py:359-384 | the field-by-field construction builds exactly `FilterQuery` |
| Query.FilteredMeetsArgs | backend/app.py:290-323 | every case selected under the truthy filters has the given sexo and etnia, and a numeric age with int(idadeMin) ≤ idade ≤ int(idadeMax) for the bounds given |
| Query.ListedMeetsArgs | backend/app.py:104-131 | every case `listar_casos` returns has the requested sexo and etnia, and a numeric age with int(idadeMin) ≤ idade ≤ int(idadeMax) for the bounds present |
| Query.EmptyAgeBound | backend/app.py:117-120 | an empty age bound makes `listar_casos` fail and is ignored by the other two builders |
| Query.NonNumericAgeBound | backend/app.py:305-310 | a non-empty bound with no digit is an error in every builder |
| Query.OversizedAgeBound | backend/app.py:114-131 | an age bound that `int()` accepts but that lies outside 64 bits makes `listar_casos` fail with OverflowError when the store encodes the query |
| Query.ListCases | backend/app.py:104-132 | a malformed age bound is `listar_casos`'s error; a well-formed query with an age bound outside 64 bits raises OverflowError, and only such a query does; otherwise it returns exactly the stored documents matching `ListQuery`, in collection order, and all of them when no filter is given |
| CaseValidation.ValidateCase | backend/app.py:74-84 | true exactly when vitima is a dict holding etnia, idade and sexo, data_do_caso is an ISO date(-time) string, and tipo_do_caso and localizacao are strings; a missing key gives false; a valid body is truthy |
| CaseValidation.CheckCase | backend/app.py:75-84 | the `try` body runs to the end exactly on a case-shaped body; a body that is not a dict fails at the first subscript with a TypeError, a dict without vitima with a KeyError |
| CaseValidation.IsCaseShaped | backend/app.py:76-82 | the case shape, field by field: vitima a dict holding etnia, idade and sexo; data_do_caso an ISO date(-time) string; tipo_do_caso and localizacao strings |
| CaseValidation.Collection.constructor | backend/app.py:28 | the collection starts with the given documents |
| CaseValidation.Collection.CreateCase | backend/app.py:135-141 | 400 and the collection unchanged exactly when the body is missing or does not validate; 500 and the collection unchanged exactly when a valid body holds an integer outside 64 bits, which `insert_one` cannot encode; otherwise 201 and the body appended |
| CaseValidation.Collection.ListCases | backend/app.py:102-133 | GET `/api/casos` answers `Query.ListCases` on the current documents |
| CaseValidation.InsertThenList | backend/app.py:102-141 | a valid, encodable body POSTed to an empty collection is returned by a GET filtering on its victim's sex and by no GET asking for another sex; a body the store cannot encode is returned by none |
| Projections.KnownPoint | backend/app.py:95-98 | a document gives a point exactly when its localizacao is a key of `bairro_coords`, with that table's coordinates |
| Projections.LocationPoints | backend/app.py:91-99 | a TypeError exactly when some localizacao is unhashable; otherwise one point per document with a known neighbourhood, in collection order, each with the table's coordinates, every known neighbourhood contributing |
| Projections.CollectLocationPoints | backend/app.py:93-98 | the append loop computes `LocationPoints`, including the TypeError on an unhashable localizacao |
| Projections.AgeItem | backend/app.py:160 | one step of the comprehension: the `in` test and the subscripts raise on strings containing "idade", lists holding "idade" and scalars |
| Projections.AgeList | backend/app.py:160 | the comprehension stops at the first exception |
| Projections.Ages | backend/app.py:157-161 | `distribuicao_idades` never raises and lists, in collection order, the idade of every embedded victim holding one |
| Projections.VictimAge | backend/app.py:160 | the age a document contributes: `vitima.idade` of an embedded victim holding it |
| Projections.AgesNeverFail | backend/app.py:159-160 | under the projection `{"vitima.idade": 1}` the comprehension never raises, whatever the stored victims are |
| Projections.KeptRecord | backend/app.py:168-171 | a record is kept exactly when sexo is present and truthy, idade is present and not None, and tipo_do_caso is present and truthy, holding those three values; so age 0 is kept |
| Projections.SexAgeTypeRecords | backend/app.py:163-177 | an AttributeError exactly when some victim is present and not a dict; otherwise the kept records, in collection order, each with truthy sexo and tipo and a non-None idade |
| Projections.SexAgeTypeRecordsMeaning | backend/app.py:163-177 | without a faulty victim, a record is listed exactly when some document yields it, and there is one record per qualifying document |
| Projections.CollectSexAgeType | backend/app.py:166-176 | the append loop computes `SexAgeTypeRecords`, including the AttributeError on a victim that is not a dict |
| Accuracy.CompleteSample | backend/app.py:327-332 | `dropna()` keeps a row exactly when all four cells are present and not None |
| Accuracy.Samples | backend/app.py:327-332 | building the frame fails exactly when some victim is present and not a dict; otherwise its rows are those `dropna()` keeps, in collection order |
| Accuracy.IndexOf | backend/app.py:336 | the code of a known label is the position of its first occurrence among the classes |
| Accuracy.Encode | backend/app.py:336 | `transform` of a label succeeds exactly for a known class name and yields its position; an unseen label is a codec error |
| Accuracy.EncodeClass | backend/app.py:336 | with distinct classes, the code of the i-th class is i |
| Accuracy.EncodeAll | backend/app.py:336 | `transform(y)` succeeds exactly when every label is a class name, and maps each to a position naming it; otherwise it fails on the first unseen label |
| Accuracy.EncodeKnownLabels | backend/app.py:336 | a frame whose labels are all class names encodes, each row to its class's position |
| Accuracy.CorrectAtMostTotal | backend/app.py:341-342 | the correct count of a class never exceeds its total |
| Accuracy.AllCorrectIff | backend/app.py:341-342 | correct equals total exactly when every row of the class is predicted as that class |
| Accuracy.CountTruePositive | backend/app.py:341 | a class's total is positive exactly when the class occurs among the true labels |
| Accuracy.ClassAccuracy | backend/app.py:343 | the accuracy lies in [0,100], is 0 for a class with no rows, and is 100 exactly when every row of the class is correct |
| Accuracy.Precisions | backend/app.py:340-345 | one accuracy per class, in class order, each in [0,100] |
| Accuracy.ClassPrecision | backend/app.py:340-343 | a class absent from the true labels scores 0; any other scores 100 × correct / total over its rows |
| Accuracy.PerfectClass | backend/app.py:340-345 | a class scores 100 exactly when it occurs and all of its rows are predicted right |
| Accuracy.PerClassAccuracy | backend/app.py:340-345 | the loop over `enumerate(classes)` computes `Precisions` |
| Accuracy.AccuracyReport | backend/app.py:287-351 | a malformed filter is an error, and an age bound outside 64 bits is an OverflowError; no matching case gives empty `classes` and `precisao`; otherwise a victim that is not a dict, zero complete rows, or an unseen label is an error, and else the answer lists all classes with the per-class accuracy of the classifier on the complete rows of the matching cases |
| Accuracy.NothingSelected | backend/app.py:323-325 | when the query runs and no case matches it, `classes` and `precisao` are empty, whatever the classifier |
| Accuracy.PerfectOnSamples | backend/app.py:340-345 | on rows whose labels are all known classes, a classifier that reproduces every label scores 100 on every class that occurs |
| Accuracy.PerfectClassifier | backend/app.py:324-345 | a classifier that reproduces every label scores 100 on every class that occurs |
| Accuracy.Accuracy | backend/app.py:287-347 | the endpoint's steps compute `AccuracyReport` |
| TypeCount.TruthyType | backend/app.py:390-392 | a document is counted exactly when its tipo_do_caso is truthy, under that value |
| TypeCount.TypeCounts | backend/app.py:389-393 | the count fails exactly when a truthy tipo is unhashable; every key is a truthy hashable tipo with a positive count |
| TypeCount.TypeCountsMeaning | backend/app.py:389-393 | the keys are exactly the truthy tipos that occur, each counted as often as it occurs, and the counts sum to the number of documents with a truthy tipo |
| TypeCount.TruthyCount | backend/app.py:389-393 | for a truthy tipo, its occurrences among the counted values are the documents holding it |
| TypeCount.CountTypes | backend/app.py:389-393 | the increment loop computes `TypeCounts` |
| TypeCount.TypeDistribution | backend/app.py:356-395 | a malformed filter is an error, and an age bound outside 64 bits is an OverflowError; otherwise the counts of the cases matching `FilterQuery`, which without filters are every stored case |
| TypeCount.DistributeTypes | backend/app.py:356-395 | the endpoint's steps compute `TypeDistribution` |
| Brackets.Midpoint | backend/app.py:247 | `sum(faixa) // 2` lies within the bracket, at its middle rounded down |
| Brackets.FaixasPartition | backend/app.py:242 | the five brackets split the ages 0 to 100 with no gap and no overlap |
| Brackets.Zip | backend/app.py:258 | `zip(classes, probs)` pairs elements position by position, up to the shorter list |
| Brackets.InputFor | backend/app.py:248-252 | the input of a bracket has an age inside it and the location "Centro" |
| Brackets.ProbabilityByAge | backend/app.py:242-262 | exactly five results and inputs in bracket order; each input is at its bracket's midpoint in "Centro", with the requested ethnicity, or one of Branca/Preta/Parda when none or "todos" is given; each result is labelled "lo-hi" and pairs the classes with the classifier's probabilities for that input |
| Dashboard.FirstIndexOf | frontend/script.js:28 | the first occurrence of the separator |
| Dashboard.Split | frontend/script.js:28 | `split(".")` yields at least one piece, and no piece holds a dot |
| Dashboard.Resolve | frontend/script.js:28 | `chave.split(".").reduce((o, k) => o?.[k], caso)` follows the path key by key; its meaning is stated by `ResolveUndefined`, `ResolveConcat` and `ResolveOneKey` |
| Dashboard.JoinSplit | frontend/script.js:28 | joining the pieces of a key gives the key back |
| Dashboard.SplitJoin | frontend/script.js:28 | splitting dot-free pieces joined with dots gives the pieces back |
| Dashboard.SplitCons | frontend/script.js:28 | a dot-free piece before the first dot is the first piece |
| Dashboard.Step | frontend/script.js:28 | `o?.[k]` is defined exactly on an object holding k |
| Dashboard.ResolveUndefined | frontend/script.js:28 | once a step is undefined, the whole path is undefined |
| Dashboard.ResolveConcat | frontend/script.js:28 | resolving a path in two parts equals resolving it at once |
| Dashboard.ResolveOneKey | frontend/script.js:28 | a key without a dot is one property lookup |
| Dashboard.OccurrenceKey | frontend/script.js:28-29 | a case is counted exactly when the value at the path is truthy |
| Dashboard.JsString | frontend/script.js:29 | `String(v)`, the property key a counted value becomes: arrays joined with ",", objects as "[object Object]" |
| Dashboard.OccurrenceKeys | frontend/script.js:27-30 | at most one counted key per case |
| Dashboard.OccurrenceKeysLength | frontend/script.js:27-30 | the counted keys are as many as the cases with a truthy value |
| Dashboard.Occurrences | frontend/script.js:25-32 | the counts of the truthy values at the path, keyed by their string form; stated by `OccurrencesMeaning` |
| Dashboard.OccurrencesMeaning | frontend/script.js:25-32 | the keys are the distinct counted values, each counted as often as it occurs, and the counts sum to the number of cases with a truthy value |
| Dashboard.CountsByStringProperty | frontend/script.js:25-32 | a non-empty string property is a key of the counts |
| Dashboard.CountOccurrences | frontend/script.js:25-32 | the `forEach` loop computes `Occurrences` |
| Dashboard.EpochDay | frontend/script.js:179 | day 0 is 1970-01-01, the anchor of Date's time values |
| Dashboard.MarchToMarch | frontend/script.js:179 | from one March 1 to the next there are 366 days exactly when the February between them is a leap February of the Gregorian calendar, else 365 |
| Dashboard.NextDay | frontend/script.js:179 | consecutive calendar days, within a month, across a month's end and across New Year, are one day number apart |
| Dashboard.ParseDateString | frontend/script.js:179-181 | a calendar date is midnight UTC of its day |
| Dashboard.NewDate | frontend/script.js:179-181 | `new Date(v)`: undefined is invalid, a calendar-date string is midnight UTC of its day, and a number is a valid date exactly within ±8.64e15 ms |
| Dashboard.FilterByDate | frontend/script.js:175-184 | a sub-list of the cases holding exactly those inside the window |
| Dashboard.FilterByDateAppend | frontend/script.js:178-183 | filtering preserves order |
| Dashboard.NoWindowKeepsAll | frontend/script.js:181 | with both inputs empty every case is kept |
| Dashboard.BoundsInclusive | frontend/script.js:181 | a case dated on a bound is kept: both bounds are inclusive |
| Dashboard.UndatedDropped | frontend/script.js:179-181 | a case without a parsable date is dropped once a bound is set |
| Dashboard.PositiveAge | frontend/script.js:211-212 | an age is shown exactly when the victim's idade is a positive number |
| Dashboard.HistogramAges | frontend/script.js:210-212 | the shown ages are positive and no more than the cases |
| Dashboard.MaxWith100 | frontend/script.js:214 | `Math.max(...idades, 100)` is at least 100 and every age, and is 100 or one of the ages |
| Dashboard.BinCount | frontend/script.js:214 | `Math.ceil(m / 10)` is the least n with 10n ≥ m |
| Dashboard.BinOf | frontend/script.js:217 | age a goes to the bin i with 10i+1 ≤ a ≤ 10(i+1) |
| Dashboard.BinInRange | frontend/script.js:213-217 | every bin index is within the array |
| Dashboard.Histogram | frontend/script.js:213-217 | there are at least 10 bins, one per decade up to the largest age |
| Dashboard.BinsSumPrefix | frontend/script.js:217 | the first n bins hold every age up to 10n |
| Dashboard.SumZeros | frontend/script.js:213-216 | the freshly created bins sum to zero |
| Dashboard.SumBump | frontend/script.js:217 | one increment adds one to the sum of the bins |
| Dashboard.HistogramSum | frontend/script.js:213-217 | the bins sum to the number of shown ages |
| Dashboard.BinLabelContains | frontend/script.js:219 | bin i's label reads, as two decimal numerals, 10i+1 and 10(i+1): a range holding every age placed in the bin |
| Dashboard.BinLabels | frontend/script.js:219 | one label per bin, in order |
| Dashboard.BinsFitIff | frontend/script.js:213-216 | the bins fit in an array (at most 2^32 − 1 of them) exactly when no shown age exceeds 42949672950 |
| Dashboard.AgeHistogram | frontend/script.js:210-219 | `Array.from` throws a RangeError exactly when the bin count exceeds 2^32 − 1; otherwise the in-place increments compute `Histogram` of the shown ages, with one label per bin |

## Left out

- Transport and configuration are not modelled: Flask routing, `jsonify`
  (including its key sorting), `abort`, CORS, dotenv and the 415/400
  answers Flask gives for a missing or malformed JSON body. The POST body
  is an optional value.
- The store is a sequence of documents, and `find` filters it with
  `Query.Matches`.
  - `_id` handling is not modelled.
  - Matching through arrays (a victim that is an array of documents) is not
    modelled: array fields never match.
  - `buscar_caso` and `deletar_caso` are thin store wrappers and are not
    modelled.
  - Repeated query-string keys are not modelled: the arguments are a map.
- Query.Matches: only the comparisons the builders produce are modelled.
  Comparisons across BSON types never match, and strings compare by code
  point.
- Floating point is not modelled. JSON numbers are integers, coordinates
  are exact reals, and accuracies are exact reals.
- Accuracy.ClassAccuracy: the value is not rounded to two decimals.
- Brackets.ProbabilityByAge: the probabilities are not rounded to four
  decimals.
- The classifier and the label encoder are inputs, not computations: a
  prediction function, a probability function and a class list. Training
  (`train_model.py`) and the pickle are not modelled. A classifier
  failing on ill-typed feature cells is not modelled either.
- Brackets.ProbabilityByAge: the probabilities are a list of (class,
  probability) pairs rather than a dict. The encoder's classes are
  distinct, so the two carry the same content.
- Brackets.ProbabilityByAge: `random.choice` is a nondeterministic choice
  among the three ethnicities. The model does not capture the
  distribution. The unused filter parameters of that endpoint are not
  modelled.
- `predizer`, `coeficientes_modelo` and `correlacoes` are not modelled.
  They only call the classifier or compute float statistics.
  `gerar_dados_aleatorios` is random seed data and is not modelled.
- The store's encoder: only its 64-bit integer limit is modelled
  (`Json.Encodable`, `Query.StoreEncodes`). Other encoding failures, such
  as documents over 16 MB or keys the server refuses, are not.
- Text.ParsePyInt: the digit limit is the default 4300. The limit can be
  changed with `PYTHONINTMAXSTRDIGITS`, and Python releases before the
  limit was introduced (3.11, 3.10.7 and the matching older patch
  releases) have none.
- Text.IntToString: Python's `str()` refuses integers of more than 4300
  digits, and this is not modelled. The backend prints only bracket
  bounds of at most 100, and JavaScript's `String()` has no such limit.
- Text.ParsePyInt: the model covers the six ASCII whitespace characters
  `int()` strips (space, tab, line feed, vertical tab, form feed, carriage
  return) and ASCII digits only. Python's `int()` also accepts non-ASCII
  Unicode whitespace and decimal digits.
- Text.IsIsoDateTime: the model accepts a date alone, or a date followed
  by one separator and HH:MM or HH:MM:SS. `datetime.fromisoformat`
  accepts more, and CaseValidation.ValidateCase rejects those bodies.
  The extra forms are hour-only times, fractional seconds, UTC offsets
  and (from Python 3.11) the basic and week-date forms.
- TypeCount.TypeCounts: Python merges the keys `1`, `1.0` and `True`
  into one dict key. The model keeps distinct JSON values as distinct
  keys.
- Dashboard.Step: only an object's own properties are looked up. Indexing
  strings and arrays, `length`, and prototype members (such as a key
  named `constructor`) read as undefined.
- Dashboard.CountOccurrences: inherited members of the counting object
  (`contagem["toString"]`, `__proto__`) are not modelled.
- Dashboard.NewDate: only `YYYY-MM-DD` and `YYYY-MM-DDTHH:MM[:SS]` without
  an offset are parsed; every other string is an invalid date in the model.
  ECMAScript's date-time string format also accepts a year alone ("2024"),
  a year and month ("2024-05"), fractional seconds, a `Z` or `±HH:MM`
  offset and expanded six-digit years, and the model treats each of these
  as invalid. Browsers also accept engine-specific formats, and engines
  differ on out-of-range days such as "2024-02-30". A date-time without
  an offset is local time, and the browser's offset is a parameter.
- Dashboard.AgeHistogram: the array-length limit is modelled, but the
  engine's limit on the number of arguments is not. `Math.max(...idades, 100)`
  spreads every shown age into one call, and an engine throws a RangeError
  once there are too many. That limit depends on the engine and its stack
  size.
- Dashboard.PositiveAge: only integer ages are shown. JavaScript's `> 0`
  would also let through numeric strings, `true` and one-element arrays,
  and the bin arithmetic would then coerce them.
- Chart.js, the DOM, `fetch` and the event listeners are not modelled.
  The bin labels and counts are the modelled output.
