# 4D result extraction, modelled in Dafny

This project models the result-extraction core of the 4D lottery crawler
(`crawler.py`). The crawler reads one results page that holds one block,
an *outer box*, per lottery company. `parse_outerbox` turns one box into a
fixed record: `draw_date`, `draw_no`, `1st`, `2nd`, `3rd`, `special`,
`consolation` and `type`. `extract_company_data` looks the company up in
`COMPANY_CONFIG` and parses the first box whose name cell shows that
company's name.

The HTML parser is not modelled. The page is given as the answers the
crawler's queries get from it:

- an outer box is every `td` cell inside it, in document order, plus every
  `td` cell after it in the document. Because of the cells after the box,
  `find_next` can leave the box, as it does in the source;
- a cell has its set of CSS classes, its text nodes in order, its `.string`
  (`None` when BeautifulSoup gives none), and the table that
  `find_parent("table")` returns for it;
- a table is its rows, and a row is the `td` cells inside it.

`get_text()` joins the text nodes. `get_text(strip=True)` strips each node
the way Python's `str.strip()` does, then joins them. A cell's `.string` is
given with the cell, as BeautifulSoup answers it.

Modules, one per concern:

- `Wrappers` (wrappers.dfy): `Option` and `Result`.
- `Seqs` (seqs.dfy): order-preserving filtering (`find_all` and the
  `append` loops) and find-first search (`find`), with their lemmas.
- `PyStr` (pystr.dfy): `str.strip()`, `sub in s` and `s.replace(pat, "")`.
- `Markup` (markup.dfy): cells, rows, tables, outer boxes and their queries.
- `Fields` (fields.dfy): the date pattern, the draw-number cleanup and the
  nested loops that collect the special and consolation lists.
- `Crawler` (crawler.dfy): `COMPANY_CONFIG`, the typed keys, the record,
  `Parse` (the specification of `parse_outerbox`), the method
  `ParseOuterbox`, and `ExtractCompanyData`.

`parse_outerbox` is a method that starts from the empty record and fills it
in section by section, as the source does. Each section is one method:
`ReadDrawInfo` for the date cells and `ReadPrizeList` for one labelled
table. All of them are proved equal to the specification function `Parse`,
and the `Parse*` lemmas state what `Parse` guarantees field by field. A
section that finds nothing returns the field's default (`""` or `[]`). The
method writes that default back, which leaves the record as the source
leaves it.
`Parse` and `ParseOuterbox` have no precondition: every box, however
incomplete, gives a record with all eight fields, and missing page parts
leave the defaults. An unknown company key makes `extract_company_data`
raise `KeyError` before any parsing. The model returns that error as a
`Result` failure.

`crawler.py` has no retries, no fallback between sources and no list
padding: `special` and `consolation` are never padded or truncated.

## Model

| member | source | states |
|---|---|---|
| `Seqs.Filter` | crawler.py:99-103 | the kept elements all pass the test, and there are never more of them than inputs |
| `Seqs.FindFirst` | crawler.py:53 | the result is the first index at or after the start whose element passes the test; no match means no index passes |
| `Seqs.FilterAppend` | crawler.py:98-103 | filtering rows one after another into one list is the same as filtering their concatenation |
| `Seqs.FilterMembership` | crawler.py:102-103 | a value is in the filtered list exactly when it is in the input and passes the test |
| `Seqs.FilterMultiplicity` | crawler.py:102-103 | a passing value is kept as often as it occurs; every other value is dropped |
| `Seqs.FilterIsSubsequence` | crawler.py:102-103 | the filtered list keeps the input's order |
| `Seqs.FilterKeepsAll` | crawler.py:102-103 | a list whose every element passes comes out unchanged |
| `PyStr.StripLeft` | crawler.py:82 | only leading whitespace is removed, and the result does not start with whitespace |
| `PyStr.StripRight` | crawler.py:82 | only trailing whitespace is removed, and the result does not end with whitespace |
| `PyStr.Strip` | crawler.py:82 | the result is a contiguous part of the input with only whitespace around it, and it neither starts nor ends with whitespace |
| `PyStr.StripIdempotent` | crawler.py:82 | stripping an already stripped text changes nothing |
| `PyStr.StripOfTrimmed` | crawler.py:82 | a text with no whitespace at either end is its own strip |
| `PyStr.ContainsIff` | crawler.py:54 | `sub in s` holds exactly when `sub` occurs at some index of `s` |
| `PyStr.RemoveAll` | crawler.py:82 | deleting the occurrences of the label never lengthens the text |
| `PyStr.RemoveAllAbsent` | crawler.py:82 | a text without the label is left as it is |
| `PyStr.RemoveAllLeading` | crawler.py:82 | a leading label is deleted and the rest is handled on its own |
| `PyStr.RemoveAllFirst` | crawler.py:82 | the first occurrence of the label is deleted, everything before it is kept, and the pass carries on after it; with `RemoveAllAbsent` this fixes the result for every text |
| `Markup.Texts` | crawler.py:101 | one stripped text per cell |
| `Markup.TextsAt` | crawler.py:87-89 | text `i` is the stripped text of cell `i` |
| `Markup.CellsWithClassSpec` | crawler.py:85 | `find_all` by class returns exactly the cells with that class, each as often as it occurs, in document order |
| `Markup.LabelCellIff` | crawler.py:92 | a cell matches `string=re.compile("Special\|特別獎")` exactly when it has a `.string` in which one of the alternatives occurs |
| `Markup.FindLabelSpec` | crawler.py:107 | the label search returns the first label cell of the box, with none before it, or `None` when there is none |
| `Fields.FindDate` | crawler.py:76 | the search finds the leftmost index where `\d{2}-\d{2}-\d{4}` matches, or reports that it matches nowhere |
| `Fields.LeftmostDateSpec` | crawler.py:76-78 | the date is `""` exactly when the pattern matches nowhere; otherwise it is the 10-character leftmost match |
| `Fields.DrawNumberOfLabelled` | crawler.py:82 | a cell reading `Draw No:` and then a number without the label yields the stripped number |
| `Fields.DrawNumberUnlabelled` | crawler.py:82 | a cell without the label is only stripped |
| `Fields.PrizeNumbersSpec` | crawler.py:96-104 | the list is the in-order subsequence of the `resultbottom` texts of the rows after the header row that keeps each text that is neither `""` nor `----`, as often as it occurs; it is never longer than those texts |
| `Fields.PrizeNumbersSkipHeader` | crawler.py:98 | the first row of the table never contributes |
| `Fields.AppendRowNumbers` | crawler.py:99-103 | the inner loop appends exactly the kept texts of one row's `resultbottom` cells |
| `Fields.CollectPrizeNumbers` | crawler.py:96-104 | the nested loops return exactly the list `PrizeNumbersSpec` describes |
| `Crawler.ParseDrawDate` | crawler.py:72-78 | `draw_date` is `""` without a date cell or without a match; otherwise it is the leftmost date-shaped substring of the first date cell's stripped text |
| `Crawler.ParseDrawNo` | crawler.py:80-82 | `draw_no` is `""` without a date cell or a following date cell; otherwise it is the next date cell's text, label removed and stripped, so it never starts or ends with whitespace |
| `Crawler.ParseTopPrizes` | crawler.py:85-89 | with three or more `resulttop` cells, `1st`/`2nd`/`3rd` are the texts of cells 0, 1 and 2 and later cells are ignored; with fewer, all three stay `""` |
| `Crawler.ParsePrizeLists` | crawler.py:92-119 | each list is `[]` when its label or table is missing; otherwise it is the labelled table's `PrizeNumbers`: the kept `resultbottom` texts after the header row, in order, each as often as it occurs; no entry is ever `""` or `----` |
| `Crawler.ParseKind` | crawler.py:122-123 | `type` is the key itself exactly for the six typed keys, and `None` for every other key |
| `Crawler.ParseEmptyBox` | crawler.py:60-69 | a box without cells gives the initial defaults, with only the type tag set |
| `Crawler.ReadDrawInfo` | crawler.py:72-82 | the date section computes the `draw_date` and `draw_no` that `ParseDrawDate` and `ParseDrawNo` describe |
| `Crawler.ReadPrizeList` | crawler.py:92-104 | a list section returns the labelled table's list, or `[]` when the label or the table is missing |
| `Crawler.ParseOuterbox` | crawler.py:58-127 | filling the record in place gives exactly `Parse`, for every box and key |
| `Crawler.ExtractCompanyData` | crawler.py:46-56 | an unknown key is a `KeyError`; otherwise the result is the parse of the first box in document order whose first name-class cell contains the configured name; earlier boxes do not match, and `None` comes back exactly when no box matches |
| `Crawler.TypedKeysAreConfigured` | crawler.py:122 | each of the six typed keys is a key of `COMPANY_CONFIG` |

## Left out

- `fetch_html` (HTTP request, timeout, exception swallowing): network I/O.
- `save_json` and `main` (directory creation, JSON file writes, `latest.json`, console output): file and console I/O.
- The HTML parser itself: the page is given as already-queried cells, rows and tables. The model does not check that these agree with one concrete HTML document.
- A cell's `.string` is an input of the model: the model does not check that it agrees with the cell's text nodes.
- Python's `\d` also matches non-ASCII digits; the model matches ASCII digits only.
- `PyStr.RemoveAll`: modelled only for a non-empty pattern. The source only ever passes `"Draw No:"`.
- `PyStr.RemoveAll`: can leave a new occurrence of the label behind, because `str.replace` makes a single pass (`"DraDraw No:w No:"` becomes `"Draw No:"`). No lemma states this.
- scripts/fetch.js and scripts/scraper/damacai.js: scraping through other libraries, concurrency, locale date formatting and file writes. They contain no extraction rule of their own.
