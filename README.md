# Employee Data Extractor — a verified model of the flattening transform

The Employee Data Extractor is a small Streamlit app. A user uploads a CSV or
Excel table of employees. Each row has an `Employee ID`, a name, a department and
an `Additional Info` column that holds JSON text. The app turns this into a flat
table with one row per (employee, selected category, sub-item). This project
models three parts of `main.py` in Dafny and proves what they promise:

- `load_file` picks a reader from the file name's suffix (module `Loader`).
- `load_json_safe` parses one Additional Info cell and never raises (module `Loader`).
- `extract_employee_data` does the extraction (module `Extractor`). It overwrites
  the frame's Additional Info column in place, then sorts the rows by Employee ID.
  It then walks the rows with a set of seen IDs, and the first row of each ID
  emits one record per sub-item under each selected key.

How the parts are modelled:

- Cells hold Python values. These are the datatype `PyValues.PyValue`: None, bool,
  number, NaN, str, list and dict.
- The Python operations the loop applies (`in`, subscription, iteration,
  `dict.get`) are written out with the exceptions they raise.
- An exception that escapes the extraction is the `Err(Fault)` outcome.
  `TypeError`, `KeyError(key)` and `AttributeError` are told apart.
- `json.loads` is a parameter `loads: string -> Option<PyValue>`. `None` stands for
  a JSONDecodeError.
- pandas' `sort_values` is a parameter `order`. It lists every row position once,
  by non-decreasing ID. pandas' default quicksort is not stable, so rows with
  equal IDs may come in any order. "First of its ID" is always meant relative to
  the sorted rows.
- The uploaded frame is the class `Extractor.DataFrame`. Its `rows` field is
  reassigned when the Additional Info column is overwritten.
- The loops of `extract_employee_data` are the methods `FlattenRows` (rows),
  `AppendRow` (selected keys), `AppendKey` and `AppendItems` (sub-items). Each is
  proved equal to a specification function: `Flatten`, `RowRecords`,
  `KeyRecords` and `ItemRecords`. Module `ExtractorProperties` proves what the
  extraction promises about those functions.

Three behaviours of `main.py` that a reader might expect to be otherwise:

- `main.py:30` uses pandas' default sort, which is not stable. Rows with equal
  IDs may reach the loop in any order.
- Malformed data raises instead of degrading to empty fields. A sub-item that is
  not a dict raises AttributeError at `.get` (main.py:48). A cell that parsed to
  `null`, a number or a bool raises TypeError at `key in json_info`
  (main.py:41). A parsed list or str that contains the key raises TypeError at
  `json_info[key]` (main.py:42).
- In the records list, `Info Detail` and `Info Description` copy whatever value
  the sub-item holds, with `''` only when the field is absent (main.py:48-49).
  They are not converted to strings.

## Model

| member | source | states |
|---|---|---|
| `Loader.ReaderFor` | main.py:8-14 | A name ending in `.csv` goes to the CSV reader. Otherwise a name ending in `.xls` or `.xlsx` goes to the Excel reader. Any other name is refused with "Unsupported file type.". Each of the three is stated as an if-and-only-if. |
| `Loader.SpreadsheetNamesUseExcel` | main.py:10-11 | Every name ending in `.xls` or `.xlsx` reaches the Excel reader. The earlier `.csv` test can never capture it. |
| `Loader.UpperCaseSuffixRefused` | main.py:8-14 | The suffix match is case-sensitive. Names ending in `.CSV` or `.XLSX` are refused. |
| `Loader.LoadJsonSafe` | main.py:20-25 | A str cell that decodes yields the decoded value unchanged. Text that fails to decode yields the empty dict, and so does a non-str cell such as NaN, which raises TypeError in `json.loads`. Nothing escapes. |
| `Loader.LoadJsonSafeTwice` | main.py:29 | Because the column is overwritten in place, parsing an already-parsed cell again turns every value that is not a str into the empty dict. |
| `PyValues.Lookup` | main.py:41-42 | `key in json_info` followed by `json_info[key]` finds a value exactly when the mapping is a dict holding the key, and then returns that entry. A dict never raises. A list raises TypeError exactly when it holds the key, and a str exactly when it contains the key. None, a bool, a number or NaN always raises TypeError. |
| `Extractor.MakeRecord` | main.py:43-50 | A sub-item gives a record exactly when the key has a label and the sub-item is a dict. Otherwise the fault is KeyError for a missing label, checked first, or else AttributeError. |
| `Extractor.ItemRecords` | main.py:42-51 | The records for one key's sub-items succeed exactly when the list is empty, or the key has a label and every sub-item is a dict. Then there is one record per sub-item, in list order. Record m carries the row's ID, name and department, the label `options[key]`, and sub-item m's `detail` and `description` (`''` when absent), read by `PyValues.GetOr`, which models `sub_item.get(name, '')`. A failure is the fault of the first bad sub-item. |
| `Extractor.AppendItems` | main.py:42-51 | The loop over one key's sub-items appends exactly `ItemRecords` to the records so far, or stops with its fault. |
| `Extractor.AppendKey` | main.py:40-51 | One selected key appends exactly `KeyRecords`. It looks the key up, then iterates the value: a list by its elements, a str by its characters (`PyValues.Chars`, one one-character str per character), a dict by its keys (strs, so a non-empty dict fails). It stops with the fault when the value is not iterable. |
| `Extractor.KeyRecords` | main.py:40-42 | For one selected key of a row, the outcome is as follows. A dict without the key gives no records. A list value gives `ItemRecords` of its elements. A None, bool, number or NaN value raises TypeError (not iterable). A str or dict value gives nothing when empty; otherwise its first element, a str, raises `SubItemFault` (KeyError for a missing label, else AttributeError). A mapping that is not a dict gives no records, or TypeError exactly when `Lookup` raises. |
| `Extractor.AppendRow` | main.py:40-51 | The loop over the selected keys appends exactly `RowRecords`, key by key, or stops at the first fault. |
| `Extractor.RowRecords` | main.py:40-51 | All records of one row, key by key in selection order. They succeed exactly when every selected key's records succeed. Otherwise the fault is the one raised by the first selected key that fails, and every earlier key succeeded. |
| `Extractor.FlattenFromSucceeds` | main.py:32-51 | The walk over the rows still to visit, given the set of IDs already seen, succeeds exactly when every remaining row that is the first of its ID, and whose ID is not yet seen, succeeds. |
| `Extractor.FlattenSucceeds` | main.py:32-51 | The extraction over rows already in sorted order, starting from an empty seen set, succeeds exactly when the row that is first of each ID succeeds. Later rows of an ID cannot make it fail. |
| `Extractor.VisitRow` | main.py:35-51 | One row of the walk appends nothing when its ID is already seen, and otherwise appends exactly `RowRecords` or stops with its fault. |
| `Extractor.FlattenRows` | main.py:32-51 | The walk over the sorted rows with a set of seen IDs produces exactly `Flatten`. Only a row whose ID is unseen emits records. |
| `Extractor.Reorder` | main.py:30 | The rows taken in pandas' order have the same length as the input, are sorted by non-decreasing ID, and position i holds input row `order[i]`. |
| `Extractor.AsTable` | main.py:53 | A successful result is a table with exactly the columns `Employee ID, Employee Name, Department, Info Type, Info Detail, Info Description`, in that order, even when it has no records. A failure passes its fault through. |
| `Extractor.DataFrame.ParseAdditionalInfo` | main.py:29 | The caller's frame keeps its rows, IDs, names and departments. Each Additional Info cell is replaced by `load_json_safe` of its old value. |
| `Extractor.ExtractEmployeeData` | main.py:27-53 | The frame is left with the parsed column, even when the extraction then raises. The result is the table `Flatten` gives for the parsed rows in pandas' sort order, or the fault. |
| `ExtractorProperties.LaterDuplicateIgnored` | main.py:33-38 | A row whose ID already occurred earlier in the sorted rows contributes nothing and cannot make the extraction raise. Replacing it by any row with the same ID, whatever its Additional Info, leaves the outcome unchanged. |
| `ExtractorProperties.FirstOfRunInSortedRows` | main.py:30-38 | In rows sorted by ID, a row is the first of its ID exactly when it starts a run of equal IDs. |
| `ExtractorProperties.RecordCount` | main.py:37-51 | A successful extraction yields as many records as a sum over the positions i whose row is the first of its ID. Each such position adds, for each selected key whose entry in that row's dict is a list, that list's length. |
| `ExtractorProperties.RecordsFromFirstRows` | main.py:35-50 | Every record copies the Employee ID, name and department of a row that is the first of its ID in the sorted rows. |
| `ExtractorProperties.RowRecordsProvenance` | main.py:40-50 | Every record of a row copies that row's ID, name and department. Its Info Type is `options[k]` for some selected key k, so keys that were not selected never produce records. |
| `ExtractorProperties.RowRecordsKeyOrder` | main.py:40 | The records of a row come key by key, in selection order. The records for `keys1 + keys2` are those for `keys1` followed by those for `keys2`, and the first fault wins. |
| `ExtractorProperties.KeyRecordsInListOrder` | main.py:42-50 | For a selected key whose value is a list, there is one record per sub-item and each sub-item is a dict. Record m carries the row's identity, the key's label, and sub-item m's `detail` and `description` (`''` when absent). |
| `ExtractorProperties.RecordsSortedById` | main.py:30-51 | Records come out in non-decreasing Employee ID order. |
| `ExtractorProperties.OnlySelectedKeysMatter` | main.py:40-41 | Two tables that differ only in what their dicts hold under keys that were not selected have the same outcome, records and faults alike. |
| `ExtractorProperties.NoSelectedKeys` | main.py:40 | With no key selected the extraction yields no record and no fault, whatever the rows hold. |
| `ExtractorProperties.UnparsedInfoContributesNothing` | main.py:40-41 | A row whose cell `load_json_safe` could not parse (invalid text or a non-str cell) holds the empty dict. It contributes no record and no fault for any selected keys. |
| `ExtractorProperties.NullCellRaises` | main.py:41 | If a row that is first of its ID has a cell that decodes to `null`, and some key is selected, the extraction raises. When that row comes first in sorted order, the fault is TypeError. |
| `ExtractorProperties.OneSkillOneRecord` | main.py:27-53 | One example: row `(3, "A", "X")` with one skill `{"detail": "Python", "description": "5yr"}`, with "skills" selected, gives exactly the record `(3, "A", "X", "Skills", "Python", "5yr")`. |
| `ExtractorProperties.FirstRowOfIdWins` | main.py:33-38 | One example: two rows with ID 7, the first with an empty dict and the second with a project, give no record. |

## Left out

- `main()` and every Streamlit call (main.py:55-108) are UI: page setup, uploader, multiselect, previews, banners and the download button. Selected keys arrive as a sequence in selection order.
- `pd.read_csv` and `pd.read_excel` (main.py:9, 11) and the `except` around them (main.py:16-18) are foreign library I/O. `Loader.ReaderFor` only names the reader that would be called. `st.error` is the `Err` message.
- `convert_df_to_csv` and its `@st.cache_data` (main.py:90-94) are pandas' CSV encoding plus a framework cache. A CSV round trip would depend on pandas' parsing and type inference, which is not modelled.
- `json.loads` is a parameter. Its own behaviour is not modelled, including errors other than JSONDecodeError and TypeError (such as RecursionError on very deep nesting), which `load_json_safe` would not catch.
- The sort algorithm is not modelled. Its outcome is the parameter `order`, constrained only to be a permutation of positions by non-decreasing ID.
- Employee IDs are integers, and names and departments are strings. pandas cells that are NaN or floats in those columns, and NaN IDs (which never compare equal), are not modelled. A frame lacking one of the four columns `Employee ID`, `Employee Name`, `Department` or `Additional Info` cannot be represented by `Row`. The code raises KeyError at main.py:29 when `Additional Info` is missing, or at main.py:30, in the sort, when `Employee ID` is missing. A missing `Employee Name` or `Department` raises KeyError at main.py:45 or 46 only when a record is built; otherwise the extraction returns a table. The model leaves these cases to its caller.
- Numbers in parsed JSON are `PyNum`, which holds an int. A float such as 2.5 cannot be represented at all, and an integral float such as 1.0 is merged with the int 1. A number is copied into Info Detail or Info Description, ignored (under an unselected key, inside a list-valued cell, or in a sub-item field other than `detail` and `description`), or makes the extraction raise: TypeError at main.py:41-42 when it is the whole cell or a selected key's value, and AttributeError at main.py:48 (KeyError at main.py:47 when the key has no label) when it is a sub-item. Merging 1.0 with 1 changes only the copied value, never which of these happens.
- `Extractor.AsTable`: the per-column type inference of the `pd.DataFrame` constructor (main.py:53) is not modelled. The table holds the records' values as they are. pandas would, for instance, turn the ints in a column that mixes numbers with `null` into floats and the `None`s into NaN. Counts, order, identities, labels and faults are unaffected.
- `Extractor.KeyRecords`: when a selected key holds a non-empty dict, Python iterates its keys in insertion order, and a Dafny map has no order. The model returns the fault that the first key (a str) raises. That fault is the same whichever key comes first (see `Extractor.ItemRecords`).
