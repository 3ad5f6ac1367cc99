# Daily trading checklist: item normalisation

This project models the item pipeline of `streamlit_checks.py`, a single-page
trading checklist. The model lives in one module, `Checklist` (`checklist.dfy`),
and covers the following:

- **The default document.** When no checklist file exists, `load_checklist`
  builds a document from the 27 built-in prompts. Prompt i gets position i + 1,
  and the `checked` list is empty.
- **`migrate_items`.** A legacy list of plain strings becomes records
  `{position, text}`, numbered 1..N in the original order. An empty list stays
  empty. A list whose first element is already a record is returned as it is.
- **`renumber`.** Overwrites every item's `position` in place with its
  index + 1. It is modelled as a method over an array.
- **`ensure_positions`.** Gives every item without a `position` its index + 1,
  then renumbers. It is also a method over an array.
- **The start of each interaction cycle** (script lines 97-106). It loads the
  document, migrates and normalises the items, and stores them back into the
  document. It then sorts them for display by `position`, with a missing
  position counting as 9999, and collects the checked texts into a set.

A stored entry is a `Value`: either `Str(s)` (legacy) or `Record(item)`. An
`Item` has an optional `position` and a `text`. The `text` is itself a `Value`.
In the code, the legacy branch of `migrate_items` copies each element into
`"text"` as it is. So a legacy list that holds a record further down produces a
record whose text is that record. The model keeps this case.

If the stored list starts with a record but holds a plain string further on,
`ensure_positions` raises a `TypeError`. For a string, `"position" not in item`
is a substring test. The item assignment that follows then fails on the string,
either in the fill loop or in `renumber`. The model returns
`Failure(PositionOnString)` for this case.

Python's `sorted` is modelled by `SortByPosition`, a stable insertion sort. The
model proves that its result is ordered by key, is a permutation of its input,
and is stable. It also proves that the sort leaves an ordered list unchanged.
So after normalisation, the display order equals the stored order.

The fill loop in `ensure_positions` has no effect on the result.
`NumberedAfterFill` shows this: every position it fills in is overwritten by
the renumbering that follows.

The code never checks an item's text. After a mixed legacy migration, a text
can even be a record.

## Model

| member | source | states |
|---|---|---|
| `Checklist.Numbered` | streamlit_checks.py:57-61 | the state `renumber` leaves: same length, position of item i is i + 1, texts unchanged in order |
| `Checklist.Renumber` | streamlit_checks.py:57-61 | the array afterwards is `Numbered` of the array before: positions 1..N in array order, nothing but positions changed |
| `Checklist.NumberedFixpoint` | streamlit_checks.py:57-61 | renumbering leaves a list unchanged if and only if its positions are already 1..N in order |
| `Checklist.NumberedIdempotent` | streamlit_checks.py:57-61 | renumbering twice gives the same list as renumbering once |
| `Checklist.DensePositions` | streamlit_checks.py:57-61 | after numbering, the set of positions is exactly {1..N}, and no two items share a position |
| `Checklist.FillMissing` | streamlit_checks.py:65-67 | the fill loop keeps every position that is present, gives a missing one index + 1, and keeps length and texts |
| `Checklist.NumberedAfterFill` | streamlit_checks.py:63-68 | filling missing positions and then renumbering gives the same list as renumbering alone |
| `Checklist.EnsurePositions` | streamlit_checks.py:63-68 | whatever positions the items had (present, missing or arbitrary), the array ends with positions 1..N in order and its texts and order unchanged |
| `Checklist.MigrateItems` | streamlit_checks.py:83-91 | same length; an empty list or one starting with a record is returned untouched; otherwise all records, numbered 1..N, with texts equal to the input entries in order |
| `Checklist.MigrateLegacy` | streamlit_checks.py:90-91 | a list of strings becomes records where record i is {position i + 1, text string i}, and reading the texts back gives the strings |
| `Checklist.MigrateIdempotent` | streamlit_checks.py:85-89 | migrating an already migrated list changes nothing |
| `Checklist.Insert` | streamlit_checks.py:105 | inserting into a list adds exactly that one item (length and multiset) |
| `Checklist.SortByPosition` | streamlit_checks.py:105 | the sorted list has the input's length and is a permutation of it |
| `Checklist.InsertSorted` | streamlit_checks.py:105 | inserting into a list ordered by key keeps it ordered |
| `Checklist.SortSorted` | streamlit_checks.py:105 | the sorted list is ordered by position, with a missing position counting as 9999 |
| `Checklist.InsertWithKey` | streamlit_checks.py:105 | insertion places the item before every item with the same key |
| `Checklist.SortStable` | streamlit_checks.py:105 | items with equal keys keep their relative order, as Python's `sorted` guarantees |
| `Checklist.SortIdentity` | streamlit_checks.py:105 | a list already ordered by key comes out of the sort unchanged |
| `Checklist.DenseIsSorted` | streamlit_checks.py:57-61 | a list numbered 1..N is ordered by key |
| `Checklist.LoadChecklist` | streamlit_checks.py:69-81 | an existing file's document is returned as loaded; with no file, 27 records with positions 1..27, texts the built-in prompts in order, and an empty checked list |
| `Checklist.Prepared` | streamlit_checks.py:99-106 | the reference definition of the cycle after loading: on success the displayed list is as long as the stored list and the document's `checked` list is kept as it was |
| `Checklist.StartCycle` | streamlit_checks.py:97-106 | the script's state after lines 97-106 is `Prepared` of the loaded document |
| `Checklist.PreparedFails` | streamlit_checks.py:99-100 | the cycle fails, because `ensure_positions` raises, exactly when the stored list starts with a record and contains a plain string |
| `Checklist.PreparedOk` | streamlit_checks.py:99-106 | on success: stored items are records numbered 1..N; texts are the legacy strings or the input records' texts, in order; the display order equals the stored order; `checked` is the set of the stored checked texts |
| `Checklist.PreparedIdempotent` | streamlit_checks.py:99-106 | running the cycle again on the document it stored gives the same state: the normalised document is a fixed point |
| `Checklist.NormalPrepared` | streamlit_checks.py:99-106 | a document of records numbered 1..N passes through the cycle unchanged and is shown in its own order |
| `Checklist.DefaultPrepared` | streamlit_checks.py:73-81 | with no file, the default document passes through the cycle unchanged, is shown in its own order, and has nothing checked |

## Left out

- File I/O and JSON (`os.path.exists`, `open`, `json.load`, `json.dump`, `save_checklist`): these are foreign calls. The loaded document is a parameter (`None` when the file is missing), and parse errors are not modelled.
- The first definition of `load_checklist` (lines 39-51): the second definition (lines 69-81) shadows it, and the two bodies are identical.
- The Streamlit interface from line 96 onward (title, forms, text input), and the rest of the script past line 111: these are rendering calls by a third-party framework. The add, delete, reorder, toggle and reminder operations do not appear in the file.
- The `datetime` and `pandas` imports: no logic in the file uses them.
- JSON values other than strings and records in `items`, keys other than `position` and `text` in a record, a record without `text`, non-integer `position` values, and a `checked` value that is not a list of strings. A null `checked` makes `set(None)` at line 106 raise a TypeError; the model reads it like a missing key, as the empty set. Non-integer positions are overwritten by `renumber` anyway.
- In-place mutation of shared dicts: items are values, and `renumber` writes a new record into each array slot. In the script, `data["items"]` and `items` are the same list through line 101, and the sorted list at line 105 holds the same records, so this loses nothing there.
- The partial mutation made before `ensure_positions` raises: the exception ends the script run, so that state is never observed.
- Python's `sorted` is modelled by a stable insertion sort. Any stable sort by the same key gives the same result, but Python's actual algorithm (Timsort) is not modelled.
