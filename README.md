# rain-prediction: the data transform of `util/data.py`, in Dafny

This project models the row-labelling and normalisation transform of the
rain-prediction repository (`util/data.py`) and proves what it does:

- `to_label` classifies a precipitation amount into severity classes 0 to 4,
  or -1 when `float()` raises TypeError (module `Labels`).
- `normalize_data` reads the hourly weather table, sorts it by time with
  Python's stable `sorted` (module `TimeOrder`), then walks the table and
  rewrites each row in place: it writes four look-ahead labels
  (`precipitation_1h`, `_6h`, `_12h` and `_24h`, read 1, 6, 12 and 24 rows ahead,
  or the placeholder `0.0` near the end) and divides five sensor columns
  by their scaling constants (module `Batch`). It then hands the table to the
  CSV writer with the first row's field names as the header (module
  `Normalize`).
- `normalize_sensors` maps one live reading onto the same five sensor
  columns, with an extra division of luminosity by 4000 (module `Live`).
- `prepare_data` selects a feature matrix and a target vector from rows of
  cells (module `Matrix`).

Module `DataModel` holds the shared vocabulary:

- Python exceptions become `Outcome` (a value, or the exception raised).
- A function's reply becomes `Reply`: a returned value, the `False` its
  `except` clauses return, or an exception it lets escape.
- Row dictionaries are maps from column names to `Value`s.
- `float()` on a cell is `ToFloat`.
- The five scaling constants are a `Divisors` parameter with positive
  fields.

The loop of `normalize_data` is the method `Batch.LabelAndScale` over an
`array<Row>`. It is proved against the specification function
`Batch.ProcessAll`. The key invariant is that the rows the loop has not
yet reached still hold what the sort put there. A label reads only rows
after the current one, which the loop has not touched. So a label read
ahead from the partly rewritten table equals the label computed from the
sorted table (`Batch.LookAheadSeesSortedRows`). The loop never writes
`precipitation` or `time`, so those keep their sorted values
(`Batch.OtherColumnsAfterLoop`).

The `except` clauses catch less than their names suggest:

- `to_label` returns -1 only for a TypeError. Line 24 catches only TypeError, so
  the ValueError of `float("abc")` escapes `to_label`, and inside
  `normalize_data` it makes the function return `False`.
- In `normalize_data`, a missing column raises KeyError. A `None` cell in a
  sensor column (what `csv.DictReader` puts into the fields of a short line)
  raises TypeError. Neither is caught: both escape instead of giving
  `False`. The IndexError named at line 70 cannot be raised by the loop
  (`Batch.LoopNeverRaisesIndexError`).
- An empty table makes `data[0]` at line 74 raise IndexError outside any
  `try` (`Normalize.EmptyTableEscapes`).
- The sort at line 45 is outside every `try`: a row without `time`, or
  whose `time` does not parse, makes the exception escape
  (`Normalize.SortFailureEscapes`).
- The writer at lines 76-82 catches only FileNotFoundError. `csv.DictWriter`
  raises ValueError in `writerows` for a row with a field the header (the
  first row's fields) lacks, and that escapes (`Normalize.ExtraFieldEscapes`).
- `normalize_sensors` catches only ValueError and IndexError. A missing key
  (KeyError) or a `None` value (TypeError) escapes instead of giving `False`
  (`Live.MissingHumidityEscapes`).

## Model

| member | source | states |
|---|---|---|
| Labels.ToLabel | util/data.py:21-34 | the label is in -1..4; it is -1 exactly when `float()` raises TypeError; `to_label` raises exactly when `float()` raises ValueError, and then raises that ValueError |
| Labels.BandsPartition | util/data.py:26-34 | the five severity bands cover every amount and do not overlap |
| Labels.LabelIsBand | util/data.py:23-34 | for a value `float()` accepts, the label is k exactly when the amount lies in band k (0 only for exactly zero, 1 for any other amount below 0.5, negative ones included) |
| Labels.LabelMonotone | util/data.py:26-34 | on amounts that are not negative, a larger amount never gets a lower class |
| Labels.NegativeAmountIsClassOne | util/data.py:26-29 | every negative amount is class 1, above the class 0 of an exact zero |
| Labels.InvalidInputs | util/data.py:22-25 | `None` gives -1; text that is not a number raises ValueError |
| TimeOrder.TimeKeys | util/data.py:45 | the sort keys can all be computed exactly when every row has a `time` that parses; the keys pair each row, in order, with its minute; on failure the exception is that of the first row whose `time` is missing (KeyError) or does not parse (the parser's exception) |
| TimeOrder.SortByMinute | util/data.py:45 | the sorted keys are a permutation of the input and in non-decreasing minute order |
| TimeOrder.SortStable | util/data.py:45 | for each minute, the rows of that minute keep their input order (stability) |
| TimeOrder.SortRows | util/data.py:45 | `sorted(data, key=...)`; contract: see TimeOrder.SortRowsIsStableSort |
| TimeOrder.SortRowsIsStableSort | util/data.py:45 | `sorted` succeeds exactly when every `time` parses, and then gives a permutation of the rows in non-decreasing time order in which rows of equal time keep their input order |
| Batch.HorizonLabel | util/data.py:49-60 | the value assigned to one label column; contract: see Batch.LabelsOk, Batch.RowLabel, Batch.LookAheadSeesSortedRows |
| Batch.Scaled | util/data.py:61-69 | one sensor divided by its constant; contract: see Batch.SensorsOk, Batch.RowSensor, Live.LiveAgainstBatch |
| Batch.LabelRow | util/data.py:49-60 | the four label assignments of one row in order; contract: see Batch.LabelsOk, Batch.LabelsKeepSensors, Batch.RowLabel |
| Batch.ScaleRow | util/data.py:61-69 | the five sensor assignments of one row in order; contract: see Batch.SensorsOk, Batch.RowSensor |
| Batch.ProcessRow | util/data.py:49-69 | one iteration of the loop; contract: see Batch.RowOk, Batch.RowLabel, Batch.RowSensor, Batch.RowOtherColumns |
| Batch.ProcessUpTo | util/data.py:48-69 | the first k iterations; contract: see Batch.ProcessUpToRows, Batch.FirstFailureDecides, Batch.FailureSticks; Batch.NextRowDone and Batch.NextRowRaises are the loop proof's one-step unfoldings of it |
| Batch.ProcessAll | util/data.py:47-72 | the whole loop on the sorted rows; contract: see Batch.LabelAndScale, Batch.LoopNeverRaisesIndexError, Batch.LabelsAfterLoop, Batch.SensorsAfterLoop, Batch.OtherColumnsAfterLoop, Batch.LoopKeys |
| Batch.LookAheadSeesSortedRows | util/data.py:49-60 | when the rows after row i are still as sorted, the label read ahead from the partly rewritten table is the label of the sorted table |
| Batch.FailureSticks | util/data.py:47-72 | once an iteration has raised, the loop's outcome is that exception |
| Batch.LabelAhead | util/data.py:49-60 | reading one label ahead in the array gives the specification's label: `to_label` of the `precipitation` h rows ahead when `i < len(data) - h`, KeyError when that row has no `precipitation`, the placeholder otherwise |
| Batch.WriteLabels | util/data.py:49-60 | writing the four labels into row i leaves the other rows alone and makes row i the sorted row with its four labels, or raises the first label's exception |
| Batch.WriteSensors | util/data.py:61-69 | overwriting the five sensors of row i, each divided by its constant, leaves the other rows alone, or raises the first failing sensor's exception |
| Batch.RewriteRow | util/data.py:49-69 | one iteration rewrites row i as the specification of one row says and leaves the other rows alone |
| Batch.LabelAndScale | util/data.py:47-72 | the in-place loop completes with the table equal to the specification applied to the sorted rows, or stops with the exception of the first row that raises |
| Batch.ColumnsDistinct | util/data.py:49-69 | the nine written columns are pairwise distinct and differ from `precipitation` and `time` |
| Batch.LabelsOk | util/data.py:49-60 | a row's four labels can be computed exactly when each horizon's label can; failures are KeyError or ValueError |
| Batch.SensorsOk | util/data.py:61-69 | a labelled row's sensors can be rescaled exactly when each sensor column is present in the sorted row and `float()` accepts it |
| Batch.LabelsKeepSensors | util/data.py:49-60 | writing labels leaves the sensor columns as the sorted row had them |
| Batch.RowOk | util/data.py:49-69 | an iteration completes exactly when all four labels and all five sensors can be computed; otherwise it raises KeyError, ValueError or TypeError |
| Batch.RowLabel | util/data.py:49-60 | an iteration writes label h as `to_label` of the `precipitation` h rows ahead when that row exists, the placeholder otherwise |
| Batch.RowSensor | util/data.py:61-69 | an iteration overwrites each sensor with its sorted value divided by its own constant |
| Batch.RowOtherColumns | util/data.py:49-69 | an iteration leaves every other column as it was, adds none besides the labels and removes none |
| Batch.ProcessUpToRows | util/data.py:48-69 | the loop completes exactly when every row's iteration does, and then holds one rewritten row per sorted row, in order |
| Batch.FirstFailureDecides | util/data.py:47-72 | when the loop raises, the exception is that of the first row whose iteration raises |
| Batch.LoopNeverRaisesIndexError | util/data.py:47-72 | the loop raises only KeyError, ValueError or TypeError; the look-ahead never indexes out of range |
| Batch.LabelsAfterLoop | util/data.py:48-60 | after the loop, label h of row i is `to_label(rows[i+h]["precipitation"])` of the sorted rows when `i < n - h`, the placeholder `0.0` otherwise |
| Batch.SensorsAfterLoop | util/data.py:61-69 | after the loop, each sensor of each row is its sorted value divided by its own constant; multiplying back gives the reading |
| Batch.OtherColumnsAfterLoop | util/data.py:48-69 | after the loop, every column the loop does not write (`precipitation` and `time` among them) is as the sort left it |
| Batch.LoopKeys | util/data.py:48-69 | after the loop, each row has exactly the fields of its sorted row plus the nine written columns |
| Batch.TailLabels | util/data.py:48-60 | the last row gets all four placeholders; with at least 25 rows, row n-25 gets the 24-hour label of the last row's precipitation |
| Normalize.NormalizeSpec | util/data.py:37-83 | the reply of `normalize_data`; contract: see Normalize.SortFailureEscapes, Normalize.LoopOutcomes, Normalize.EmptyTableEscapes, Normalize.ExtraFieldEscapes, Normalize.ReturnedMeans, Normalize.WrittenTable |
| Normalize.RowsFitHeader | util/data.py:80 | checking the rows one by one finds whether every row's fields are in the header, which is when `writerows` does not raise |
| Normalize.NormalizeData | util/data.py:37-83 | reading, sorting, the in-place loop over an array, the header from the first row and the hand-over to the writer give the reply of the specification |
| Normalize.EmptyTableEscapes | util/data.py:74 | an empty table raises IndexError out of `normalize_data` |
| Normalize.SortFailureEscapes | util/data.py:45 | when some row's `time` is missing or does not parse, `normalize_data` raises the exception of the first such row: KeyError, or the parser's exception |
| Normalize.ExtraFieldEscapes | util/data.py:76-82 | a written row with a field missing from the first row's fields makes `normalize_data` raise ValueError once the output opened |
| Normalize.SortKeepsFields | util/data.py:45 | rows that all have the same fields still do after the sort |
| Normalize.LoopKeepsFields | util/data.py:48-69 | rows that all have the same fields come out of the loop with those fields plus the nine written columns |
| Normalize.UniformRowsAreWritten | util/data.py:74-83 | when the table is non-empty, all its rows have the same fields, the loop completes and the output opens, `True` comes back, with those fields plus the nine written columns as header |
| Normalize.LoopOutcomes | util/data.py:47-82 | after a successful sort, `False` comes back exactly when the loop raises ValueError, or the table is non-empty and the output cannot be opened; the loop raises only KeyError, ValueError or TypeError, and anything but ValueError escapes |
| Normalize.ReturnedMeans | util/data.py:74-83 | `True` means the sort and the loop succeeded on a non-empty table, the output opened and every row's fields are in the header; the loop's rows are written with the first row's field names as header |
| Normalize.LoopKeepsTimeOrder | util/data.py:45-69 | the loop keeps the row count and every `time`, so a time-sorted table stays sorted |
| Normalize.HeaderHasWrittenColumns | util/data.py:74-79 | the header taken from the first row names the four label columns and the five sensor columns |
| Normalize.WrittenTable | util/data.py:37-83 | when `True` is returned, the written table is the loop applied to a stable time sort of the input, has one row per input row, is in time order, its header holds the nine written columns, and every row's fields are in the header |
| Live.LiveRow | util/data.py:88-91 | the dictionary literal, entries in order; contract: see Live.LiveRowOk |
| Live.NormalizeSensors | util/data.py:86-95 | the reply of `normalize_sensors`; contract: see Live.LiveReturns, Live.LiveReturnedRow, Live.LiveRoundTrip, Live.FirstFailingField |
| Live.LiveDivisor | util/data.py:88-91 | every divisor of the live path is positive |
| Live.LiveField | util/data.py:88-91 | one entry evaluates exactly when its key is present and `float()` accepts the value; multiplying the result by the live divisor gives the reading; a failure is KeyError for a missing key, else the exception of `float()` |
| Live.LiveRowOk | util/data.py:88-91 | the dictionary literal evaluates exactly when its five entries do, and then has exactly the five sensor columns, each holding its entry |
| Live.LiveReturns | util/data.py:86-92 | a dictionary comes back exactly when all five keys are present and `float()` accepts their values |
| Live.LiveReturnedRow | util/data.py:88-92 | the dictionary that comes back has exactly the five sensor columns as keys, each holding its entry |
| Live.LiveRoundTrip | util/data.py:88-91 | each output value multiplied by its live divisor (LUMINOSITY_N times 4000 for luminosity) gives the reading |
| Live.FirstFailingField | util/data.py:87-95 | the first entry that raises decides the reply: `False` for ValueError, the exception itself otherwise |
| Live.MissingHumidityEscapes | util/data.py:88-95 | a reading without `humidity` whose first two values parse raises KeyError out of `normalize_sensors` |
| Live.LiveAgainstBatch | util/data.py:86-91 | on the same value, the live path and the batch scaling agree on success, and luminosity comes out 4000 times smaller on the live path |
| Matrix.PyIndex | util/data.py:16-17 | `row[i]` succeeds exactly when `-len(row) <= i < len(row)`, else raises IndexError |
| Matrix.NegativeIndexFromEnd | util/data.py:16-17 | a negative index names the cell that index plus the length names |
| Matrix.Cell | util/data.py:16-17 | `float(row[i])` succeeds exactly when the index is in range and `float()` accepts the cell; it raises only IndexError, ValueError or TypeError |
| Matrix.Features | util/data.py:16 | a feature row is built exactly when every selected cell converts; it holds `float(row[i])` for the indices in order; a failure is the exception of one of its cells |
| Matrix.FeatureMatrix | util/data.py:16 | x is built exactly when every feature row is; it has one feature row per data row, in order |
| Matrix.Targets | util/data.py:17 | y is built exactly when every target cell converts; `y[r]` is `float(data[r][target_index])` |
| Matrix.PrepareData | util/data.py:15-18 | `prepare_data`, x before y; contract: see Matrix.PrepareDataOk, Matrix.PrepareDataValues, Matrix.PrepareDataRaises, Matrix.FeaturesRaiseFirst |
| Matrix.PrepareDataOk | util/data.py:15-18 | both arrays come back exactly when every selected cell of every row converts |
| Matrix.PrepareDataValues | util/data.py:15-18 | x has one row per input row holding the selected cells in index order, and y holds each row's target cell; row order is preserved |
| Matrix.PrepareDataRaises | util/data.py:15-18 | a failure is IndexError, ValueError or TypeError |
| Matrix.FeaturesRaiseFirst | util/data.py:16-17 | x is built before y: when x fails, its exception is the one raised |

## Left out

- File I/O (`read_data`, and the `open`/`csv.DictReader`/`csv.DictWriter` blocks of `normalize_data`) is reduced to parameters. The input is `None` when opening it raises FileNotFoundError, else the rows the reader produced. A flag says whether the output opens. Other OS errors are not modelled; they would escape.
- `datetime.strptime` is a parameter `parseTime` that gives a `time` value's minute, or the exception parsing raises. The timestamp format itself is not modelled.
- Python's `sorted` (Timsort) is modelled as a stable insertion sort on precomputed keys. The result is the same: a stable sort is determined by its keys.
- `float()` on text is reduced to the `Value` cases: text that parses to a real, text that does not, and `None`. IEEE-754 rounding of the divisions, NaN and infinities are not modelled, because numbers are `real`s.
- numpy array construction in `prepare_data` is modelled as sequences. Rows that are not lists are not modelled.
- The scaling constants of `constants/constants.py` are not part of this model. They are the positive parameters `Divisors`.
- `print` diagnostics and `main` are not modelled.
- Normalize.WrittenTable: the header is modelled as the set of the first row's field names, not their order. A Dafny map has no key order, so the column order of the written CSV is not stated.
- Live.NormalizeSensors: a `data` argument that is not a dictionary (which would raise TypeError at the subscript) is not modelled; readings are row maps.
- `csv.DictWriter.writerows` is modelled only by what decides the reply: a row with a field outside the header raises ValueError, and a row lacking a header field is written. The text it writes is not modelled.
- A CSV line longer than the header, which `csv.DictReader` stores under the key `None`, cannot be represented: row keys are strings. Rows with differing field sets are modelled, and `Normalize.ExtraFieldEscapes` covers the error this case leads to.
